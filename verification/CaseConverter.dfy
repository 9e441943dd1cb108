/**
 JSON key case conversion (mobile/lib/core/api/case_converter.dart).

 SnakeOf and CamelOf are the character-level meaning of the two converters; the methods
 below are the loops of the program, proved against them. Case mapping is the ASCII one.
 */
module CaseConverter {

  // ---------------------------------------------------------------- characters

  predicate IsUpper(c: char) { 'A' <= c <= 'Z' }

  predicate IsLower(c: char) { 'a' <= c <= 'z' }

  function ToLower(c: char): char {
    if IsUpper(c) then (c as int + 32) as char else c
  }

  function ToUpper(c: char): char {
    if IsLower(c) then (c as int - 32) as char else c
  }

  const CAPITALS := "ABCDEFGHIJKLMNOPQRSTUVWXYZ"

  const SMALL_LETTERS := "abcdefghijklmnopqrstuvwxyz"

  /** Capitals and small letters are those of the alphabet, and correspond one to one. */
  lemma {:induction false} Letters(c: char)
    ensures IsUpper(c) <==> c in CAPITALS
    ensures IsLower(c) <==> c in SMALL_LETTERS
    ensures forall i :: 0 <= i < 26 ==>
              ToLower(CAPITALS[i]) == SMALL_LETTERS[i] && ToUpper(SMALL_LETTERS[i]) == CAPITALS[i]
    ensures !IsUpper(c) ==> ToLower(c) == c
    ensures !IsLower(c) ==> ToUpper(c) == c
  {
    Alphabets();
    if IsUpper(c) {
      assert CAPITALS[c as int - 'A' as int] == c;
    }
    if IsLower(c) {
      assert SMALL_LETTERS[c as int - 'a' as int] == c;
    }
  }

  lemma {:induction false} Alphabets()
    ensures |CAPITALS| == 26 && forall i :: 0 <= i < 26 ==> CAPITALS[i] as int == 'A' as int + i
    ensures |SMALL_LETTERS| == 26 && forall i :: 0 <= i < 26 ==> SMALL_LETTERS[i] as int == 'a' as int + i
  {
  }

  // ---------------------------------------------------------------- meaning

  /** Every capital after the first character gets a '_' in front; everything is lowered. */
  function SnakeOf(s: string): string {
    if s == "" then ""
    else
      var c := s[|s| - 1];
      SnakeOf(s[..|s| - 1]) + SnakePiece(|s| == 1, c)
  }

  /** What one character is written as. */
  function SnakePiece(first: bool, c: char): string {
    if IsUpper(c) && !first then ['_', ToLower(c)] else [ToLower(c)]
  }

  /** Every '_' disappears and the character right after one is raised. */
  function CamelOf(s: string): string {
    if s == "" then ""
    else
      var c := s[|s| - 1];
      CamelOf(s[..|s| - 1]) +
      if c == '_' then "" else if |s| > 1 && s[|s| - 2] == '_' then [ToUpper(c)] else [c]
  }

  /** Keys the mobile models use: no '_' and no leading capital. */
  predicate IsCamelKey(s: string) {
    '_' !in s && (s != "" ==> !IsUpper(s[0]))
  }

  /** Keys the backend uses: no capitals, and every '_' sits inside, before a letter. */
  ghost predicate IsSnakeKey(s: string) {
    (forall i :: 0 <= i < |s| ==> !IsUpper(s[i])) &&
    (forall i :: 0 <= i < |s| && s[i] == '_' ==> 0 < i && i + 1 < |s| && IsLower(s[i + 1]))
  }

  // ---------------------------------------------------------------- the two loops

  method CamelToSnake(input: string) returns (r: string)
    ensures r == SnakeOf(input)
  {
    if input == "" { return input; }
    var buf := "";
    for i := 0 to |input|
      invariant buf == SnakeOf(input[..i])
    {
      assert input[..i + 1][..i] == input[..i];
      var ch := input[i];
      if IsUpper(ch) && i > 0 {
        buf := buf + "_";
      }
      buf := buf + [ToLower(ch)];
    }
    assert input[..|input|] == input;
    return buf;
  }

  /** The pieces between the '_' characters; always at least one. */
  function Split(s: string): (parts: seq<string>)
    ensures |parts| > 0
  {
    if s == "" then [""]
    else
      var parts, c := Split(s[..|s| - 1]), s[|s| - 1];
      if c == '_' then parts + [""]
      else parts[|parts| - 1 := parts[|parts| - 1] + [c]]
  }

  /** What one piece after the first contributes: its first character raised. */
  function Raised(p: string): string {
    if p == "" then "" else [ToUpper(p[0])] + p[1..]
  }

  /** The first piece followed by the others raised. */
  function Joined(parts: seq<string>): string
    requires |parts| > 0
  {
    if |parts| == 1 then parts[0] else Joined(parts[..|parts| - 1]) + Raised(parts[|parts| - 1])
  }

  method SnakeToCamel(input: string) returns (r: string)
    ensures r == CamelOf(input)
  {
    JoinedSplit(input);
    if input == "" || '_' !in input {
      CamelWithoutUnderscore(input);
      return input;
    }
    var parts := Split(input);
    var buf := parts[0];
    for i := 1 to |parts|
      invariant buf == Joined(parts[..i])
    {
      JoinedStep(parts, i);
      if parts[i] == "" { continue; }
      buf := buf + Raised(parts[i]);
    }
    assert parts[..|parts|] == parts;
    return buf;
  }

  lemma {:induction false} JoinedStep(parts: seq<string>, i: nat)
    requires 0 < i < |parts|
    ensures Joined(parts[..i + 1]) == Joined(parts[..i]) + Raised(parts[i])
  {
    assert parts[..i + 1][..i] == parts[..i];
  }

  /** How joining reacts to one more character in the last piece. */
  lemma {:induction false} JoinedExtend(parts: seq<string>, c: char)
    requires |parts| > 0
    ensures var n := |parts| - 1;
            Joined(parts[n := parts[n] + [c]]) ==
            Joined(parts) + if n > 0 && parts[n] == "" then [ToUpper(c)] else [c]
  {
    var n := |parts| - 1;
    var extended := parts[n := parts[n] + [c]];
    if n > 0 {
      assert extended[..n] == parts[..n];
      assert Raised(extended[n]) == Raised(parts[n]) + if parts[n] == "" then [ToUpper(c)] else [c];
    }
  }

  lemma {:induction false} JoinedEmptyPiece(parts: seq<string>)
    requires |parts| > 0
    ensures Joined(parts + [""]) == Joined(parts)
  {
    assert (parts + [""])[..|parts|] == parts;
  }

  lemma {:induction false} SplitLastPiece(s: string)
    ensures (Split(s)[|Split(s)| - 1] == "") == (s == "" || s[|s| - 1] == '_')
    ensures |Split(s)| == 1 ==> '_' !in s
  {
    if s != "" {
      SplitLastPiece(s[..|s| - 1]);
      assert s == s[..|s| - 1] + [s[|s| - 1]];
    }
  }

  /** Splitting on '_' and rejoining with raised pieces is the character-level meaning. */
  lemma {:induction false} JoinedSplit(s: string)
    ensures Joined(Split(s)) == CamelOf(s)
  {
    if s != "" {
      var front, c := s[..|s| - 1], s[|s| - 1];
      JoinedSplit(front);
      SplitLastPiece(front);
      if c == '_' {
        JoinedEmptyPiece(Split(front));
      } else {
        JoinedExtend(Split(front), c);
        SplitIsOnePiece(front);
      }
    }
  }

  lemma {:induction false} SplitIsOnePiece(s: string)
    ensures |Split(s)| > 1 <==> '_' in s
  {
    if s != "" {
      SplitIsOnePiece(s[..|s| - 1]);
      assert s == s[..|s| - 1] + [s[|s| - 1]];
    }
  }

  lemma {:induction false} CamelWithoutUnderscore(s: string)
    requires forall i :: 0 <= i < |s| ==> s[i] != '_'
    ensures CamelOf(s) == s
  {
    if s != "" {
      var front, c := s[..|s| - 1], s[|s| - 1];
      CamelWithoutUnderscore(front);
      CamelPlainStep(front, c);
      assert s == front + [c];
    }
  }

  lemma {:induction false} CamelPlainStep(s: string, c: char)
    requires c != '_' && (s == "" || s[|s| - 1] != '_')
    ensures CamelOf(s + [c]) == CamelOf(s) + [c]
  {
    assert (s + [c])[..|s|] == s;
  }

  // ---------------------------------------------------------------- round trips

  lemma {:induction false} SnakeEnds(s: string)
    ensures s == "" <==> SnakeOf(s) == ""
    ensures s != "" ==> SnakeOf(s)[0] == ToLower(s[0])
    ensures s != "" ==> SnakeOf(s)[|SnakeOf(s)| - 1] == ToLower(s[|s| - 1])
  {
    if s != "" {
      SnakeEnds(s[..|s| - 1]);
    }
  }

  lemma {:induction false} SnakeLowered(s: string)
    ensures forall i :: 0 <= i < |SnakeOf(s)| ==> !IsUpper(SnakeOf(s)[i])
  {
    if s != "" {
      SnakeLowered(s[..|s| - 1]);
    }
  }

  lemma {:induction false} CamelHasNoUnderscore(s: string)
    ensures '_' !in CamelOf(s)
  {
    if s != "" {
      CamelHasNoUnderscore(s[..|s| - 1]);
    }
  }

  lemma {:induction false} CamelStart(s: string)
    requires s != "" && s[0] != '_'
    ensures CamelOf(s) != "" && CamelOf(s)[0] == s[0]
  {
    if |s| > 1 {
      CamelStart(s[..|s| - 1]);
    }
  }

  lemma {:induction false} CamelAppend(b: string, c: char)
    ensures c == '_' ==> CamelOf(b + [c]) == CamelOf(b)
    ensures c != '_' && b != "" && b[|b| - 1] == '_' ==> CamelOf(b + [c]) == CamelOf(b) + [ToUpper(c)]
    ensures c != '_' && !(b != "" && b[|b| - 1] == '_') ==> CamelOf(b + [c]) == CamelOf(b) + [c]
  {
    assert (b + [c])[..|b|] == b;
  }

  lemma {:induction false} CamelHump(a: string, c: char)
    requires c != '_'
    ensures CamelOf(a + ['_', c]) == CamelOf(a) + [ToUpper(c)]
  {
    var b := a + ['_'];
    CamelAppend(a, '_');
    CamelAppend(b, c);
    assert a + ['_', c] == b + [c];
  }

  lemma {:induction false} CamelKeyPrefix(s: string)
    requires IsCamelKey(s) && s != ""
    ensures IsCamelKey(s[..|s| - 1]) && s[|s| - 1] != '_'
    ensures |s| > 1 ==> s[|s| - 2] != '_'
    ensures |s| == 1 ==> !IsUpper(s[0])
  {
    assert forall i :: 0 <= i < |s| ==> s[i] in s;
  }

  /** Reading back what one character was written as. */
  lemma {:induction false} CamelOfPiece(a: string, first: bool, c: char)
    requires c != '_' && (first ==> !IsUpper(c))
    requires a != "" ==> a[|a| - 1] != '_'
    ensures CamelOf(a + SnakePiece(first, c)) == CamelOf(a) + [c]
  {
    if IsUpper(c) {
      CamelHump(a, ToLower(c));
    } else {
      CamelAppend(a, c);
    }
  }

  lemma {:induction false} CamelAfterSnakeStep(head: string, c: char)
    requires CamelOf(SnakeOf(head)) == head && c != '_'
    requires head == "" ==> !IsUpper(c)
    requires head != "" ==> head[|head| - 1] != '_'
    ensures CamelOf(SnakeOf(head + [c])) == head + [c]
  {
    SnakeEnds(head);
    SnakeAppend(head, c);
    CamelOfPiece(SnakeOf(head), head == "", c);
  }

  /** A camel key without its last character. */
  lemma {:induction false} CamelKeyLast(s: string) returns (head: string, c: char)
    requires IsCamelKey(s) && s != ""
    ensures s == head + [c] && IsCamelKey(head) && c != '_'
    ensures head == "" ==> !IsUpper(c)
    ensures head != "" ==> head[|head| - 1] != '_'
  {
    head, c := s[..|s| - 1], s[|s| - 1];
    CamelKeyPrefix(s);
  }

  lemma {:induction false} CamelAfterSnake(s: string)
    requires IsCamelKey(s)
    ensures CamelOf(SnakeOf(s)) == s
    decreases |s|
  {
    if s != "" {
      var head, c := CamelKeyLast(s);
      CamelAfterSnake(head);
      CamelAfterSnakeStep(head, c);
    }
  }

  /** A camelCase key survives the trip to snake_case and back exactly when it is a camel key. */
  lemma {:induction false} CamelRoundTrip(s: string)
    ensures CamelOf(SnakeOf(s)) == s <==> IsCamelKey(s)
  {
    if IsCamelKey(s) {
      CamelAfterSnake(s);
    } else if CamelOf(SnakeOf(s)) == s {
      CamelHasNoUnderscore(SnakeOf(s));
      SnakeEnds(s);
      CamelStart(SnakeOf(s));
    }
  }

  /** Converting a name without '_' always gives a backend key. */
  lemma {:induction false} SnakeIsSnakeKey(s: string)
    requires '_' !in s
    ensures IsSnakeKey(SnakeOf(s))
    ensures s != "" ==> SnakeOf(s)[|SnakeOf(s)| - 1] != '_'
  {
    SnakeLowered(s);
    if s != "" {
      var head, c := s[..|s| - 1], s[|s| - 1];
      assert c in s && forall x :: x in head ==> x in s;
      SnakeIsSnakeKey(head);
      SnakeEnds(head);
      AddPiece(SnakeOf(head), head == "", c);
    }
  }

  lemma {:induction false} AddPiece(a: string, first: bool, c: char)
    requires IsSnakeKey(a) && (a == "" <==> first) && (a != "" ==> a[|a| - 1] != '_') && c != '_'
    ensures IsSnakeKey(a + SnakePiece(first, c))
  {
  }

  lemma {:induction false} SnakeKeyPrefix(t: string, k: nat)
    requires IsSnakeKey(t) && k <= |t| && (k > 0 ==> t[k - 1] != '_')
    ensures IsSnakeKey(t[..k])
  {
  }

  /** The last character of a backend key, seen from both converters. */
  lemma {:induction false} SnakeKeyLast(t: string)
    requires IsSnakeKey(t) && t != ""
    ensures t[|t| - 1] != '_' && !IsUpper(t[|t| - 1])
    ensures |t| > 1 && t[|t| - 2] == '_' ==>
              |t| > 2 && t[|t| - 3] != '_' && t[0] != '_' && IsLower(t[|t| - 1])
  {
  }

  lemma {:induction false} SnakeAppend(b: string, c: char)
    ensures SnakeOf(b + [c]) == SnakeOf(b) + SnakePiece(b == "", c)
  {
    assert (b + [c])[..|b|] == b;
  }

  lemma {:induction false} SnakeOfHump(head: string, c: char)
    requires SnakeOf(CamelOf(head)) == head && CamelOf(head) != "" && IsLower(c)
    ensures SnakeOf(CamelOf(head + ['_', c])) == head + ['_', c]
  {
    CamelHump(head, c);
    SnakeAppend(CamelOf(head), ToUpper(c));
  }

  /** A backend key ending in a hump is a shorter one plus '_' and a letter. */
  lemma {:induction false} SnakeKeyHump(t: string) returns (head: string, c: char)
    requires IsSnakeKey(t) && |t| > 1 && t[|t| - 2] == '_'
    ensures t == head + ['_', c] && IsSnakeKey(head) && IsLower(c)
    ensures head != "" && head[0] != '_'
  {
    SnakeKeyLast(t);
    head, c := t[..|t| - 2], t[|t| - 1];
    SnakeKeyPrefix(t, |t| - 2);
  }

  lemma {:induction false} SnakeOfPlain(head: string, c: char)
    requires SnakeOf(CamelOf(head)) == head && c != '_' && !IsUpper(c) && (head == "" || head[|head| - 1] != '_')
    ensures SnakeOf(CamelOf(head + [c])) == head + [c]
  {
    CamelPlainStep(head, c);
    SnakeAppend(CamelOf(head), c);
  }

  /** A backend key ending otherwise is a shorter one plus a character that is no capital. */
  lemma {:induction false} SnakeKeyPlain(t: string) returns (head: string, c: char)
    requires IsSnakeKey(t) && t != "" && !(|t| > 1 && t[|t| - 2] == '_')
    ensures t == head + [c] && IsSnakeKey(head) && c != '_' && !IsUpper(c)
    ensures head == "" || head[|head| - 1] != '_'
  {
    SnakeKeyLast(t);
    head, c := t[..|t| - 1], t[|t| - 1];
    SnakeKeyPrefix(t, |t| - 1);
  }

  lemma {:induction false} SnakeAfterCamel(t: string)
    requires IsSnakeKey(t)
    ensures SnakeOf(CamelOf(t)) == t
    decreases |t|
  {
    if |t| > 1 && t[|t| - 2] == '_' {
      var head, c := SnakeKeyHump(t);
      SnakeAfterCamel(head);
      CamelStart(head);
      SnakeOfHump(head, c);
    } else if t != "" {
      var head, c := SnakeKeyPlain(t);
      SnakeAfterCamel(head);
      SnakeOfPlain(head, c);
    }
  }

  /** A snake_case key survives the trip to camelCase and back exactly when it is a snake key. */
  lemma {:induction false} SnakeRoundTrip(t: string)
    ensures SnakeOf(CamelOf(t)) == t <==> IsSnakeKey(t)
  {
    if IsSnakeKey(t) {
      SnakeAfterCamel(t);
    } else if SnakeOf(CamelOf(t)) == t {
      CamelHasNoUnderscore(t);
      SnakeIsSnakeKey(CamelOf(t));
    }
  }

  lemma {:induction false} SnakeFixesLowered(s: string)
    requires forall i :: 0 <= i < |s| ==> !IsUpper(s[i])
    ensures SnakeOf(s) == s
  {
    if s != "" {
      SnakeFixesLowered(s[..|s| - 1]);
      assert s == s[..|s| - 1] + [s[|s| - 1]];
    }
  }

  /** Both converters leave their own output alone, on every string. */
  lemma {:induction false} ConvertersIdempotent(s: string)
    ensures SnakeOf(SnakeOf(s)) == SnakeOf(s)
    ensures CamelOf(CamelOf(s)) == CamelOf(s)
  {
    SnakeLowered(s);
    SnakeFixesLowered(SnakeOf(s));
    CamelHasNoUnderscore(s);
    CamelWithoutUnderscore(CamelOf(s));
  }

  /** Distinct camel keys never collide on the wire, nor do distinct backend keys on the client. */
  lemma {:induction false} ConvertersInjective(a: string, b: string)
    ensures IsCamelKey(a) && IsCamelKey(b) && SnakeOf(a) == SnakeOf(b) ==> a == b
    ensures IsSnakeKey(a) && IsSnakeKey(b) && CamelOf(a) == CamelOf(b) ==> a == b
  {
    CamelRoundTrip(a);
    CamelRoundTrip(b);
    SnakeRoundTrip(a);
    SnakeRoundTrip(b);
  }
}
