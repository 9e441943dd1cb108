/**
 Lifting a key conversion to whole JSON values (convertKeys of case_converter.dart).

 A Dart Map keeps its insertion order and writes to an existing key in place, so an
 object is an ordered list of entries and Put is the map assignment.
 */
module JsonKeys {
  import opened Basics
  import opened CaseConverter

  /** A Dart map key: a String, or anything else seen through toString. */
  datatype Key = Text(text: string) | Other(shown: string)

  datatype Scalar = Null | Bool(b: bool) | Num(n: int) | Str(s: string)

  datatype Entry = Entry(key: Key, val: Json)

  datatype Json = Object(entries: seq<Entry>) | List(items: seq<Json>) | Leaf(scalar: Scalar)

  type Transform = string -> string

  function NewKey(k: Key, f: Transform): Key {
    match k
    case Text(t) => Text(f(t))
    case Other(shown) => Text(shown)
  }

  predicate HasKey(es: seq<Entry>, k: Key) {
    exists i :: 0 <= i < |es| && es[i].key == k
  }

  /** Assignment in a map that keeps insertion order: an existing key keeps its place. */
  function Put(es: seq<Entry>, k: Key, v: Json): seq<Entry> {
    if !HasKey(es, k) then es + [Entry(k, v)]
    else if es[|es| - 1].key == k then es[..|es| - 1] + [Entry(k, v)]
    else Put(es[..|es| - 1], k, v) + [es[|es| - 1]]
  }

  function Converted(v: Json, f: Transform): Json {
    match v
    case Object(es) => Object(ConvertedEntries(es, f))
    case List(js) => List(ConvertedItems(js, f))
    case Leaf(_) => v
  }

  function ConvertedEntries(es: seq<Entry>, f: Transform): seq<Entry> {
    if es == [] then []
    else
      var e := es[|es| - 1];
      assert es decreases to e;
      Put(ConvertedEntries(es[..|es| - 1], f), NewKey(e.key, f), Converted(e.val, f))
  }

  function ConvertedItems(js: seq<Json>, f: Transform): (r: seq<Json>)
    ensures |r| == |js|
  {
    if js == [] then []
    else ConvertedItems(js[..|js| - 1], f) + [Converted(js[|js| - 1], f)]
  }

  method ConvertKeys(value: Json, f: Transform) returns (r: Json)
    ensures r == Converted(value, f)
    decreases value
  {
    match value
    case Object(es) =>
      var out: seq<Entry> := [];
      for i := 0 to |es|
        invariant out == ConvertedEntries(es[..i], f)
      {
        assert es[..i + 1][..i] == es[..i];
        var child := ConvertKeys(es[i].val, f);
        out := Put(out, NewKey(es[i].key, f), child);
      }
      assert es[..|es|] == es;
      return Object(out);
    case List(js) =>
      var out: seq<Json> := [];
      for i := 0 to |js|
        invariant out == ConvertedItems(js[..i], f)
      {
        assert js[..i + 1][..i] == js[..i];
        var child := ConvertKeys(js[i], f);
        out := out + [child];
      }
      assert js[..|js|] == js;
      return List(out);
    case Leaf(_) =>
      return value;
  }

  // ---------------------------------------------------------------- collisions

  /** The keys of a map, in order. */
  function Keys(es: seq<Entry>): seq<Key> {
    if es == [] then [] else Keys(es[..|es| - 1]) + [es[|es| - 1].key]
  }

  /** The keys the conversion writes, in order, repetitions included. */
  function Images(es: seq<Entry>, f: Transform): (r: seq<Key>) {
    if es == [] then [] else Images(es[..|es| - 1], f) + [NewKey(es[|es| - 1].key, f)]
  }

  /** No object anywhere in v has two sibling keys with the same image. */
  ghost predicate NoCollision(v: Json, f: Transform) {
    match v
    case Object(es) => NoDuplicates(Images(es, f)) && NoCollisionEntries(es, f)
    case List(js) => NoCollisionItems(js, f)
    case Leaf(_) => true
  }

  ghost predicate NoCollisionEntries(es: seq<Entry>, f: Transform) {
    es == [] ||
    var e := es[|es| - 1];
    assert es decreases to e;
    NoCollisionEntries(es[..|es| - 1], f) && NoCollision(e.val, f)
  }

  ghost predicate NoCollisionItems(js: seq<Json>, f: Transform) {
    js == [] || (NoCollisionItems(js[..|js| - 1], f) && NoCollision(js[|js| - 1], f))
  }

  /** v with every key erased: sizes of maps and lists, order and leaves remain. */
  function Skeleton(v: Json): Json {
    match v
    case Object(es) => Object(SkeletonEntries(es))
    case List(js) => List(SkeletonItems(js))
    case Leaf(_) => v
  }

  function SkeletonEntries(es: seq<Entry>): (r: seq<Entry>)
    ensures |r| == |es|
  {
    if es == [] then []
    else
      var e := es[|es| - 1];
      assert es decreases to e;
      SkeletonEntries(es[..|es| - 1]) + [Entry(Text(""), Skeleton(e.val))]
  }

  function SkeletonItems(js: seq<Json>): (r: seq<Json>)
    ensures |r| == |js|
  {
    if js == [] then []
    else SkeletonItems(js[..|js| - 1]) + [Skeleton(js[|js| - 1])]
  }

  lemma {:induction false} KeysAppend(es: seq<Entry>, e: Entry)
    ensures Keys(es + [e]) == Keys(es) + [e.key]
  {
    assert (es + [e])[..|es|] == es;
  }

  lemma {:induction false} KeysIndexed(es: seq<Entry>)
    ensures |Keys(es)| == |es|
    ensures forall i :: 0 <= i < |es| ==> Keys(es)[i] == es[i].key
  {
    if es != [] {
      KeysIndexed(es[..|es| - 1]);
    }
  }

  /** Put overwrites the entry with the key, or appends when there is none. */
  lemma {:induction false} PutKeys(es: seq<Entry>, k: Key, v: Json)
    ensures k in Keys(es) ==> Keys(Put(es, k, v)) == Keys(es)
    ensures k !in Keys(es) ==> Put(es, k, v) == es + [Entry(k, v)] && Keys(Put(es, k, v)) == Keys(es) + [k]
  {
    KeysIndexed(es);
    KeysAppend(es, Entry(k, v));
    if HasKey(es, k) {
      var front, last := es[..|es| - 1], es[|es| - 1];
      assert es == front + [last];
      KeysAppend(front, last);
      if last.key == k {
        KeysAppend(front, Entry(k, v));
      } else {
        KeysIndexed(front);
        PutKeys(front, k, v);
        KeysAppend(Put(front, k, v), last);
      }
    }
  }

  lemma {:induction false} PutFresh(es: seq<Entry>, e: Entry)
    requires e.key !in Keys(es)
    ensures Put(es, e.key, e.val) == es + [e]
  {
    PutKeys(es, e.key, e.val);
    assert e == Entry(e.key, e.val);
  }

  /** One conversion step, when the image is a new key. */
  lemma {:induction false} ConvertedLast(es: seq<Entry>, f: Transform, front: seq<Entry>, e: Entry)
    requires es != [] && ConvertedEntries(es[..|es| - 1], f) == front && e.key !in Keys(front)
    requires NewKey(es[|es| - 1].key, f) == e.key && Converted(es[|es| - 1].val, f) == e.val
    ensures ConvertedEntries(es, f) == front + [e]
  {
    PutFresh(front, e);
  }

  /** The keys of a converted map are the distinct images, in order of first appearance. */
  lemma {:induction false} ConvertedKeys(es: seq<Entry>, f: Transform)
    ensures Keys(ConvertedEntries(es, f)) == Dedup(Images(es, f))
    ensures |Images(es, f)| == |es|
  {
    if es != [] {
      var front, e := es[..|es| - 1], es[|es| - 1];
      ConvertedKeys(front, f);
      PutKeys(ConvertedEntries(front, f), NewKey(e.key, f), Converted(e.val, f));
      var imgs := Images(front, f);
      assert (imgs + [NewKey(e.key, f)])[..|imgs|] == imgs;
    }
  }

  /** A map loses an entry exactly when two sibling keys have the same image. */
  lemma {:induction false} EntryLostIffCollision(es: seq<Entry>, f: Transform)
    ensures |ConvertedEntries(es, f)| <= |es|
    ensures |ConvertedEntries(es, f)| == |es| <==> NoDuplicates(Images(es, f))
  {
    ConvertedKeys(es, f);
    KeysIndexed(ConvertedEntries(es, f));
    DedupSize(Images(es, f));
  }

  /** Without a collision at this level the converted map is entry by entry the original. */
  lemma {:induction false} ConvertedAppends(es: seq<Entry>, f: Transform)
    requires es != [] && NoDuplicates(Images(es, f))
    ensures NoDuplicates(Images(es[..|es| - 1], f))
    ensures ConvertedEntries(es, f) ==
            ConvertedEntries(es[..|es| - 1], f) + [Entry(NewKey(es[|es| - 1].key, f), Converted(es[|es| - 1].val, f))]
  {
    var front, e := es[..|es| - 1], es[|es| - 1];
    ConvertedKeys(front, f);
    var imgs, k := Images(front, f), NewKey(e.key, f);
    DistinctAppend(imgs, k);
    DedupSize(imgs);
    PutKeys(ConvertedEntries(front, f), k, Converted(e.val, f));
  }

  function Lookup(es: seq<Entry>, k: Key): Option<Json> {
    if es == [] then None
    else if es[|es| - 1].key == k then Some(es[|es| - 1].val)
    else Lookup(es[..|es| - 1], k)
  }

  /** The converted value of the last entry whose key is written as k. */
  function LastWritten(es: seq<Entry>, f: Transform, k: Key): Option<Json> {
    if es == [] then None
    else if NewKey(es[|es| - 1].key, f) == k then Some(Converted(es[|es| - 1].val, f))
    else LastWritten(es[..|es| - 1], f, k)
  }

  lemma {:induction false} LookupAppend(es: seq<Entry>, e: Entry, k: Key)
    ensures Lookup(es + [e], k) == if e.key == k then Some(e.val) else Lookup(es, k)
  {
    assert (es + [e])[..|es|] == es;
  }

  lemma {:induction false} LookupPut(es: seq<Entry>, k: Key, v: Json, k': Key)
    ensures Lookup(Put(es, k, v), k') == if k == k' then Some(v) else Lookup(es, k')
  {
    if !HasKey(es, k) {
      LookupAppend(es, Entry(k, v), k');
    } else if es[|es| - 1].key == k {
      LookupAppend(es[..|es| - 1], Entry(k, v), k');
    } else {
      LookupPut(es[..|es| - 1], k, v, k');
      LookupAppend(Put(es[..|es| - 1], k, v), es[|es| - 1], k');
    }
  }

  /** When keys do collide, the value that survives under an image is the last one written. */
  lemma {:induction false} CollisionKeepsLast(es: seq<Entry>, f: Transform, k: Key)
    ensures Lookup(ConvertedEntries(es, f), k) == LastWritten(es, f, k)
  {
    if es != [] {
      var front, e := es[..|es| - 1], es[|es| - 1];
      CollisionKeepsLast(front, f, k);
      LookupPut(ConvertedEntries(front, f), NewKey(e.key, f), Converted(e.val, f), k);
    }
  }

  lemma {:induction false} SkeletonAppend(es: seq<Entry>, e: Entry)
    ensures SkeletonEntries(es + [e]) == SkeletonEntries(es) + [Entry(Text(""), Skeleton(e.val))]
  {
    assert (es + [e])[..|es|] == es;
  }

  lemma {:induction false} SkeletonItemsAppend(js: seq<Json>, j: Json)
    ensures SkeletonItems(js + [j]) == SkeletonItems(js) + [Skeleton(j)]
  {
    assert (js + [j])[..|js|] == js;
  }

  /**
   Conversion keeps every map size, list length, order and leaf of a JSON tree
   exactly when no two sibling keys anywhere collide.
   */
  lemma {:induction false} ShapeKeptIffNoCollision(v: Json, f: Transform)
    ensures Skeleton(Converted(v, f)) == Skeleton(v) <==> NoCollision(v, f)
    decreases v, 0
  {
    match v
    case Object(es) =>
      EntryLostIffCollision(es, f);
      if NoDuplicates(Images(es, f)) {
        ShapeKeptEntries(es, f);
      }
    case List(js) =>
      ShapeKeptItems(js, f);
    case Leaf(_) =>
  }

  lemma {:induction false} ShapeKeptEntries(es: seq<Entry>, f: Transform)
    requires NoDuplicates(Images(es, f))
    ensures SkeletonEntries(ConvertedEntries(es, f)) == SkeletonEntries(es) <==> NoCollisionEntries(es, f)
    decreases es, 1
  {
    if es != [] {
      var front, e := es[..|es| - 1], es[|es| - 1];
      ConvertedAppends(es, f);
      ShapeKeptEntries(front, f);
      assert es decreases to e;
      ShapeKeptIffNoCollision(e.val, f);
      SkeletonAppend(ConvertedEntries(front, f), Entry(NewKey(e.key, f), Converted(e.val, f)));
      EntryLostIffCollision(front, f);
      SplitLast(SkeletonEntries(ConvertedEntries(front, f)), Entry(Text(""), Skeleton(Converted(e.val, f))),
                SkeletonEntries(front), Entry(Text(""), Skeleton(e.val)));
    }
  }

  lemma {:induction false} SplitLast<T>(a: seq<T>, x: T, b: seq<T>, y: T)
    ensures a + [x] == b + [y] <==> a == b && x == y
  {
    if a + [x] == b + [y] {
      assert a == (a + [x])[..|a|] == (b + [y])[..|b|] == b;
      assert x == (a + [x])[|a|];
    }
  }

  lemma {:induction false} ShapeKeptItems(js: seq<Json>, f: Transform)
    ensures SkeletonItems(ConvertedItems(js, f)) == SkeletonItems(js) <==> NoCollisionItems(js, f)
    decreases js, 1
  {
    if js != [] {
      var front, j := js[..|js| - 1], js[|js| - 1];
      ShapeKeptItems(front, f);
      ShapeKeptIffNoCollision(j, f);
      SkeletonItemsAppend(ConvertedItems(front, f), Converted(j, f));
      SplitLast(SkeletonItems(ConvertedItems(front, f)), Skeleton(Converted(j, f)),
                SkeletonItems(front), Skeleton(j));
    }
  }

  // ---------------------------------------------------------------- round trip

  /** Siblings differ everywhere, as in any Dart map. */
  ghost predicate MapTree(v: Json) {
    match v
    case Object(es) => NoDuplicates(Keys(es)) && MapEntries(es)
    case List(js) => MapItems(js)
    case Leaf(_) => true
  }

  ghost predicate MapEntries(es: seq<Entry>) {
    es == [] ||
    var e := es[|es| - 1];
    assert es decreases to e;
    MapEntries(es[..|es| - 1]) && MapTree(e.val)
  }

  ghost predicate MapItems(js: seq<Json>) {
    js == [] || (MapItems(js[..|js| - 1]) && MapTree(js[|js| - 1]))
  }

  lemma {:induction false} MapItemsAre(js: seq<Json>)
    ensures MapItems(js) <==> forall i :: 0 <= i < |js| ==> MapTree(js[i])
  {
    if js != [] {
      MapItemsAre(js[..|js| - 1]);
      assert forall i :: 0 <= i < |js| - 1 ==> js[..|js| - 1][i] == js[i];
    }
  }

  lemma {:induction false} MapEntriesAre(es: seq<Entry>)
    ensures MapEntries(es) <==> forall i :: 0 <= i < |es| ==> MapTree(es[i].val)
  {
    if es != [] {
      MapEntriesAre(es[..|es| - 1]);
      assert forall i :: 0 <= i < |es| - 1 ==> es[..|es| - 1][i] == es[i];
    }
  }

  /** Every key of the tree is a camel key. */
  predicate CamelTree(v: Json) {
    match v
    case Object(es) => CamelEntries(es)
    case List(js) => CamelItems(js)
    case Leaf(_) => true
  }

  predicate CamelEntries(es: seq<Entry>) {
    es == [] ||
    var e := es[|es| - 1];
    assert es decreases to e;
    CamelEntries(es[..|es| - 1]) && CamelKey(e.key) && CamelTree(e.val)
  }

  predicate CamelKey(k: Key) {
    k.Text? && IsCamelKey(k.text)
  }

  predicate CamelItems(js: seq<Json>) {
    js == [] || (CamelItems(js[..|js| - 1]) && CamelTree(js[|js| - 1]))
  }

  const TO_SNAKE: Transform := (s: string) => SnakeOf(s)

  const TO_CAMEL: Transform := (s: string) => CamelOf(s)

  /** A key converted for the backend and back. */
  function KeyBack(k: Key): Key {
    NewKey(NewKey(k, TO_SNAKE), TO_CAMEL)
  }

  lemma {:induction false} KeyRoundTrip(k: Key)
    ensures KeyBack(k) == k <==> CamelKey(k)
  {
    if k.Text? {
      CamelRoundTrip(k.text);
    }
  }

  lemma {:induction false} PrefixDistinct(es: seq<Entry>)
    requires es != [] && NoDuplicates(Keys(es))
    ensures NoDuplicates(Keys(es[..|es| - 1])) && es[|es| - 1].key !in Keys(es[..|es| - 1])
  {
    DistinctAppend(Keys(es[..|es| - 1]), es[|es| - 1].key);
  }

  lemma {:induction false} CamelImages(es: seq<Entry>)
    requires CamelEntries(es)
    ensures |Images(es, TO_SNAKE)| == |es|
    ensures forall i :: 0 <= i < |es| ==>
              CamelKey(es[i].key) && Images(es, TO_SNAKE)[i] == Text(SnakeOf(es[i].key.text))
  {
    if es != [] {
      CamelImages(es[..|es| - 1]);
    }
  }

  /** Camel keys have distinct snake images. */
  lemma {:induction false} CamelImagesDistinct(es: seq<Entry>)
    requires CamelEntries(es) && NoDuplicates(Keys(es))
    ensures NoDuplicates(Images(es, TO_SNAKE))
  {
    if es != [] {
      PrefixDistinct(es);
      CamelImagesDistinct(es[..|es| - 1]);
      NewImage(es[..|es| - 1], es[|es| - 1].key);
    }
  }

  lemma {:induction false} NewImage(front: seq<Entry>, k: Key)
    requires CamelEntries(front) && CamelKey(k) && k !in Keys(front)
    requires NoDuplicates(Images(front, TO_SNAKE))
    ensures NoDuplicates(Images(front, TO_SNAKE) + [NewKey(k, TO_SNAKE)])
  {
    var imgs := Images(front, TO_SNAKE);
    CamelImages(front);
    KeysIndexed(front);
    forall i | 0 <= i < |imgs| ensures imgs[i] != NewKey(k, TO_SNAKE) {
      ConvertersInjective(front[i].key.text, k.text);
      assert Keys(front)[i] in Keys(front);
    }
    DistinctAppend(imgs, NewKey(k, TO_SNAKE));
  }

  lemma {:induction false} ImagesAppend(es: seq<Entry>, e: Entry, f: Transform)
    ensures Images(es + [e], f) == Images(es, f) + [NewKey(e.key, f)]
  {
    assert (es + [e])[..|es|] == es;
  }

  function Sent(es: seq<Entry>): seq<Entry> {
    ConvertedEntries(es, TO_SNAKE)
  }

  function Back(es: seq<Entry>): seq<Entry> {
    ConvertedEntries(Sent(es), TO_CAMEL)
  }

  /** The entry e after both conversions, when nothing collides. */
  function EntryBack(e: Entry): Entry {
    Entry(KeyBack(e.key), Converted(Converted(e.val, TO_SNAKE), TO_CAMEL))
  }

  /** On the way back camel keys meet their own images. */
  lemma {:induction false} ImagesBack(es: seq<Entry>)
    requires NoDuplicates(Images(es, TO_SNAKE)) && CamelEntries(es)
    ensures Images(Sent(es), TO_CAMEL) == Keys(es)
  {
    if es != [] {
      var front, e := es[..|es| - 1], es[|es| - 1];
      ConvertedAppends(es, TO_SNAKE);
      ImagesBack(front);
      ImagesAppend(Sent(front), Entry(NewKey(e.key, TO_SNAKE), Converted(e.val, TO_SNAKE)), TO_CAMEL);
      KeyRoundTrip(e.key);
    }
  }

  /** Without collisions on either way the last entry comes back last. */
  lemma {:induction false} BackAppends(es: seq<Entry>, front: seq<Entry>, e: Entry)
    requires es != [] && front == es[..|es| - 1] && e == es[|es| - 1]
    requires NoDuplicates(Images(es, TO_SNAKE)) && NoDuplicates(Images(Sent(es), TO_CAMEL))
    ensures Back(es) == Back(front) + [EntryBack(e)]
  {
    ConvertedAppends(es, TO_SNAKE);
    var last := Entry(NewKey(e.key, TO_SNAKE), Converted(e.val, TO_SNAKE));
    assert (Sent(front) + [last])[..|Sent(front)|] == Sent(front);
    ConvertedAppends(Sent(es), TO_CAMEL);
  }

  /** A collision on either way loses an entry for good. */
  lemma {:induction false} CollisionShrinks(es: seq<Entry>)
    requires !NoDuplicates(Images(es, TO_SNAKE)) || !NoDuplicates(Images(Sent(es), TO_CAMEL))
    ensures Back(es) != es
  {
    EntryLostIffCollision(es, TO_SNAKE);
    EntryLostIffCollision(Sent(es), TO_CAMEL);
  }

  /** Camel keys collide on neither way. */
  lemma {:induction false} CamelNeverCollides(es: seq<Entry>)
    requires NoDuplicates(Keys(es)) && CamelEntries(es)
    ensures NoDuplicates(Images(es, TO_SNAKE)) && NoDuplicates(Images(Sent(es), TO_CAMEL))
  {
    CamelImagesDistinct(es);
    ImagesBack(es);
  }

  /**
   A request body, converted for the backend and back, is unchanged exactly when every key in
   it is a camel key.
   */
  lemma {:induction false} TreeRoundTrip(v: Json)
    requires MapTree(v)
    ensures Converted(Converted(v, TO_SNAKE), TO_CAMEL) == v <==> CamelTree(v)
    decreases v, 0
  {
    match v
    case Object(es) => EntriesRoundTrip(es);
    case List(js) => ItemsRoundTrip(js);
    case Leaf(_) =>
  }

  lemma {:induction false} EntriesRoundTrip(es: seq<Entry>)
    requires MapEntries(es) && NoDuplicates(Keys(es))
    ensures Back(es) == es <==> CamelEntries(es)
    decreases es, 1
  {
    if !(NoDuplicates(Images(es, TO_SNAKE)) && NoDuplicates(Images(Sent(es), TO_CAMEL))) {
      CollisionShrinks(es);
      if CamelEntries(es) {
        CamelNeverCollides(es);
      }
    } else if es != [] {
      var front, e := es[..|es| - 1], es[|es| - 1];
      assert es decreases to e;
      PrefixDistinct(es);
      EntriesRoundTrip(front);
      TreeRoundTrip(e.val);
      LastRoundTrip(es, front, e);
    }
  }

  lemma {:induction false} LastRoundTrip(es: seq<Entry>, front: seq<Entry>, e: Entry)
    requires es != [] && front == es[..|es| - 1] && e == es[|es| - 1]
    requires NoDuplicates(Images(es, TO_SNAKE)) && NoDuplicates(Images(Sent(es), TO_CAMEL))
    ensures Back(es) == es <==>
            Back(front) == front && CamelKey(e.key) && Converted(Converted(e.val, TO_SNAKE), TO_CAMEL) == e.val
  {
    BackAppends(es, front, e);
    KeyRoundTrip(e.key);
    SplitLast(Back(front), EntryBack(e), front, e);
    assert es == front + [e];
  }

  lemma {:induction false} ItemsRoundTrip(js: seq<Json>)
    requires MapItems(js)
    ensures ConvertedItems(ConvertedItems(js, TO_SNAKE), TO_CAMEL) == js <==> CamelItems(js)
    decreases js, 1
  {
    if js != [] {
      var front, j := js[..|js| - 1], js[|js| - 1];
      ItemsRoundTrip(front);
      TreeRoundTrip(j);
      ItemsAppend(ConvertedItems(front, TO_SNAKE), Converted(j, TO_SNAKE), TO_CAMEL);
      SplitLast(ConvertedItems(ConvertedItems(front, TO_SNAKE), TO_CAMEL),
                Converted(Converted(j, TO_SNAKE), TO_CAMEL), front, j);
      assert js == front + [j];
    }
  }

  lemma {:induction false} ItemsAppend(js: seq<Json>, j: Json, f: Transform)
    ensures ConvertedItems(js + [j], f) == ConvertedItems(js, f) + [Converted(j, f)]
  {
    assert (js + [j])[..|js|] == js;
  }

  lemma {:induction false} PutOver(was: Json, k: Key, v: Json)
    ensures Put([], k, v) == [Entry(k, v)] && Put([Entry(k, was)], k, v) == [Entry(k, v)]
  {
    assert [Entry(k, was)][0].key == k && [Entry(k, was)][..0] == [];
  }

  /** Two siblings with one image: the second value wins, the first is lost. */
  lemma {:induction false} PairMerges(e: Entry, d: Entry, f: Transform)
    requires NewKey(e.key, f) == NewKey(d.key, f)
    ensures ConvertedEntries([e, d], f) == [Entry(NewKey(d.key, f), Converted(d.val, f))]
  {
    assert [e, d][..1] == [e] && [e][..0] == [];
    PutOver(Converted(e.val, f), NewKey(e.key, f), Converted(e.val, f));
    assert ConvertedEntries([e], f) == [Entry(NewKey(e.key, f), Converted(e.val, f))];
    PutOver(Converted(e.val, f), NewKey(d.key, f), Converted(d.val, f));
  }

  lemma {:induction false} CollidingKeys()
    ensures SnakeOf("uA") == SnakeOf("u_a") == "u_a" && "uA" != "u_a"
  {
    assert "uA"[..1] == "u" && "u_a"[..2] == "u_" && "u_"[..1] == "u";
    assert |"uA"| != |"u_a"|;
  }

  /** Different keys uA and u_a of one map reach the backend as one entry. */
  lemma {:induction false} CollidingSiblings(a: Json, b: Json)
    ensures Text("uA") != Text("u_a")
    ensures ConvertedEntries([Entry(Text("uA"), a), Entry(Text("u_a"), b)], TO_SNAKE) ==
            [Entry(Text("u_a"), Converted(b, TO_SNAKE))]
  {
    CollidingKeys();
    PairMerges(Entry(Text("uA"), a), Entry(Text("u_a"), b), TO_SNAKE);
  }
}
