/** The string operations of the standard library that the service relies on,
    over ASCII text. */
module Text {

  /** White space: tab, line feed, vertical tab, form feed, carriage return, space. */
  predicate IsSpace(c: char) {
    c as int == 32 || 9 <= c as int <= 13
  }

  predicate SpaceFree(s: string) {
    forall k :: 0 <= k < |s| ==> !IsSpace(s[k])
  }

  function LowerChar(c: char): char {
    if 'A' <= c <= 'Z' then (c as int + 32) as char else c
  }

  function ToLower(s: string): (r: string)
    ensures |r| == |s|
  {
    seq(|s|, k requires 0 <= k < |s| => LowerChar(s[k]))
  }

  predicate EqualFold(a: string, b: string) {
    ToLower(a) == ToLower(b)
  }

  function TrimLeft(s: string): string {
    if s != [] && IsSpace(s[0]) then TrimLeft(s[1..]) else s
  }

  function TrimRight(s: string): string {
    if s != [] && IsSpace(s[|s| - 1]) then TrimRight(s[..|s| - 1]) else s
  }

  function TrimSpace(s: string): string {
    TrimRight(TrimLeft(s))
  }

  /** True of text that trimming leaves alone. */
  predicate Trimmed(s: string) {
    s == [] || (!IsSpace(s[0]) && !IsSpace(s[|s| - 1]))
  }

  function Join(parts: seq<string>, separator: string): string {
    if |parts| == 0 then ""
    else if |parts| == 1 then parts[0]
    else parts[0] + separator + Join(parts[1..], separator)
  }

  /** The pieces between consecutive occurrences of `separator`; never empty. */
  function Split(s: string, separator: char): (r: seq<string>)
    ensures |r| > 0
  {
    if s == [] then [""]
    else
      var rest := Split(s[1..], separator);
      if s[0] == separator then [""] + rest else [[s[0]] + rest[0]] + rest[1..]
  }

  /** The maximal runs of non-space characters, in order. */
  function Fields(s: string): seq<string> {
    FieldsFrom("", s)
  }

  function FieldsFrom(current: string, s: string): seq<string>
    decreases s
  {
    if s == [] then Emit(current)
    else if IsSpace(s[0]) then Emit(current) + FieldsFrom("", s[1..])
    else FieldsFrom(current + [s[0]], s[1..])
  }

  function Emit(current: string): seq<string> {
    if current == [] then [] else [current]
  }

  // ---------------------------------------------------------------- lemmas

  /** The capital letters, and only they, have another lower-case form: the letter at
      the same place of the alphabet. */
  lemma LowerMeaning(c: char)
    ensures LowerChar(c) != c <==> 'A' <= c <= 'Z'
    ensures 'A' <= c <= 'Z' ==> LowerChar(c) as int - 'a' as int == c as int - 'A' as int
  {
  }

  /** All characters are white space. */
  predicate AllSpace(s: string) {
    forall k :: 0 <= k < |s| ==> IsSpace(s[k])
  }

  lemma {:induction false} TrimLeftMeaning(s: string)
    ensures |TrimLeft(s)| <= |s| && TrimLeft(s) == s[|s| - |TrimLeft(s)|..] && AllSpace(s[..|s| - |TrimLeft(s)|])
  {
    if s != [] && IsSpace(s[0]) {
      TrimLeftMeaning(s[1..]);
      var n := |s[1..]| - |TrimLeft(s)|;
      assert s[1..][n..] == s[n + 1..];
      assert s[..n + 1] == [s[0]] + s[1..][..n];
    }
  }

  lemma {:induction false} TrimRightMeaning(s: string)
    ensures |TrimRight(s)| <= |s| && TrimRight(s) == s[..|TrimRight(s)|] && AllSpace(s[|TrimRight(s)|..])
  {
    if s != [] && IsSpace(s[|s| - 1]) {
      var init := s[..|s| - 1];
      TrimRightMeaning(init);
      var n := |TrimRight(s)|;
      assert init[..n] == s[..n];
      assert s[n..] == init[n..] + [s[|s| - 1]];
    }
  }

  /** The text is this middle between two pieces of white space. */
  predicate IsMiddle(s: string, left: string, middle: string, right: string) {
    AllSpace(left) && AllSpace(right) && s == left + middle + right
  }

  /** Trimming removes white space at both ends, and all of it. */
  lemma TrimMeaning(s: string)
    ensures exists left, right :: IsMiddle(s, left, TrimSpace(s), right)
    ensures Trimmed(TrimSpace(s))
  {
    TrimSpaceIsTrimmed(s);
    TrimLeftMeaning(s);
    TrimRightMeaning(TrimLeft(s));
    TwoEnds(s, TrimLeft(s), TrimSpace(s));
  }

  lemma TwoEnds(s: string, rest: string, middle: string)
    requires |rest| <= |s| && rest == s[|s| - |rest|..] && AllSpace(s[..|s| - |rest|])
    requires |middle| <= |rest| && middle == rest[..|middle|] && AllSpace(rest[|middle|..])
    ensures exists left, right :: IsMiddle(s, left, middle, right)
  {
    var left, right := s[..|s| - |rest|], rest[|middle|..];
    assert rest == middle + right;
    assert s == left + rest;
    assert IsMiddle(s, left, middle, right);
  }

  lemma LowerIsIdempotent(s: string)
    ensures ToLower(ToLower(s)) == ToLower(s)
  {
  }

  lemma LowerConcat(a: string, b: string)
    ensures ToLower(a + b) == ToLower(a) + ToLower(b)
  {
  }

  lemma LowerOfPrefix(s: string, n: nat)
    requires n <= |s|
    ensures ToLower(s[..n]) == ToLower(s)[..n]
  {
  }

  lemma LowerKeepsSpace(c: char)
    ensures IsSpace(LowerChar(c)) == IsSpace(c)
  {
  }

  lemma {:induction false} TrimLeftShape(s: string)
    ensures exists k :: 0 <= k <= |s| && TrimLeft(s) == s[k..]
    ensures TrimLeft(s) == [] || !IsSpace(TrimLeft(s)[0])
  {
    if s != [] && IsSpace(s[0]) {
      TrimLeftShape(s[1..]);
      var k :| 0 <= k <= |s[1..]| && TrimLeft(s[1..]) == s[1..][k..];
      assert s[1..][k..] == s[k + 1..];
    } else {
      assert s == s[0..];
    }
  }

  lemma {:induction false} TrimRightShape(s: string)
    ensures exists k :: 0 <= k <= |s| && TrimRight(s) == s[..k]
    ensures TrimRight(s) == [] || !IsSpace(TrimRight(s)[|TrimRight(s)| - 1])
  {
    if s != [] && IsSpace(s[|s| - 1]) {
      var init := s[..|s| - 1];
      TrimRightShape(init);
      var k :| 0 <= k <= |init| && TrimRight(init) == init[..k];
      assert init[..k] == s[..k];
    } else {
      assert s == s[..|s|];
    }
  }

  lemma TrimSpaceIsTrimmed(s: string)
    ensures Trimmed(TrimSpace(s))
  {
    TrimLeftShape(s);
    TrimRightShape(TrimLeft(s));
  }

  lemma TrimmedIsFixed(s: string)
    requires Trimmed(s)
    ensures TrimSpace(s) == s
  {
  }

  lemma TrimIsIdempotent(s: string)
    ensures TrimSpace(TrimSpace(s)) == TrimSpace(s)
  {
    TrimSpaceIsTrimmed(s);
  }

  lemma {:induction false} TrimLeftLower(s: string)
    ensures TrimLeft(ToLower(s)) == ToLower(TrimLeft(s))
  {
    if s != [] {
      LowerKeepsSpace(s[0]);
      if IsSpace(s[0]) {
        TrimLeftLower(s[1..]);
        assert ToLower(s)[1..] == ToLower(s[1..]);
      }
    }
  }

  lemma {:induction false} TrimRightLower(s: string)
    ensures TrimRight(ToLower(s)) == ToLower(TrimRight(s))
  {
    if s != [] {
      LowerKeepsSpace(s[|s| - 1]);
      if IsSpace(s[|s| - 1]) {
        TrimRightLower(s[..|s| - 1]);
        assert ToLower(s)[..|s| - 1] == ToLower(s[..|s| - 1]);
      }
    }
  }

  lemma TrimLower(s: string)
    ensures TrimSpace(ToLower(s)) == ToLower(TrimSpace(s))
  {
    TrimLeftLower(s);
    TrimRightLower(TrimLeft(s));
  }

  lemma {:induction false} FieldsFromExtend(current: string, word: string, s: string)
    requires SpaceFree(word)
    ensures FieldsFrom(current, word + s) == FieldsFrom(current + word, s)
    decreases word
  {
    if word == [] {
      assert word + s == s && current + word == current;
    } else {
      assert (word + s)[0] == word[0] && (word + s)[1..] == word[1..] + s;
      FieldsFromExtend(current + [word[0]], word[1..], s);
      assert current + [word[0]] + word[1..] == current + word;
    }
  }

  /** Every field is a nonempty run of non-space characters of the text. */
  lemma {:induction false} FieldsAreWords(current: string, s: string, t: string)
    requires SpaceFree(current)
    requires t in FieldsFrom(current, s)
    ensures t != [] && SpaceFree(t)
    ensures forall c :: c in t ==> c in current || c in s
    decreases s
  {
    if s != [] {
      if IsSpace(s[0]) {
        if t !in Emit(current) {
          FieldsAreWords("", s[1..], t);
        }
      } else {
        FieldsAreWords(current + [s[0]], s[1..], t);
      }
    }
  }

  /** Splitting at white space loses nothing but the white space. */
  lemma {:induction false} FieldsConserve(current: string, s: string)
    requires SpaceFree(current)
    ensures Join(FieldsFrom(current, s), "") == current + WithoutSpace(s)
    decreases s
  {
    if s == [] {
    } else if IsSpace(s[0]) {
      FieldsConserve("", s[1..]);
      var rest := FieldsFrom("", s[1..]);
      if current != [] {
        assert ([current] + rest)[1..] == rest;
        if rest == [] {
        } else {
          assert Join([current] + rest, "") == current + "" + Join(rest, "");
        }
      } else {
        assert Emit(current) + rest == rest;
      }
    } else {
      FieldsConserve(current + [s[0]], s[1..]);
    }
  }

  function WithoutSpace(s: string): string {
    if s == [] then [] else (if IsSpace(s[0]) then [] else [s[0]]) + WithoutSpace(s[1..])
  }

  predicate Words(parts: seq<string>) {
    forall t :: t in parts ==> t != [] && SpaceFree(t)
  }

  /** Joining words with a space and splitting again gives the words back. */
  lemma {:induction false} FieldsOfJoin(parts: seq<string>)
    requires Words(parts)
    ensures Fields(Join(parts, " ")) == parts
  {
    if |parts| == 1 {
      FieldsFromExtend("", parts[0], "");
      assert parts[0] + "" == parts[0] && "" + parts[0] == parts[0];
    } else if |parts| > 1 {
      var tail := Join(parts[1..], " ");
      assert Join(parts, " ") == parts[0] + (" " + tail);
      FieldsFromExtend("", parts[0], " " + tail);
      assert "" + parts[0] == parts[0];
      assert (" " + tail)[1..] == tail;
      FieldsOfJoin(parts[1..]);
      assert [parts[0]] + parts[1..] == parts;
    }
  }

  lemma {:induction false} JoinIsTrimmed(parts: seq<string>)
    requires Words(parts)
    ensures Trimmed(Join(parts, " "))
    ensures parts != [] ==> Join(parts, " ") != []
  {
    if parts != [] {
      assert parts[0] in parts;
    }
    if |parts| > 1 {
      JoinIsTrimmed(parts[1..]);
      var joined, tail := Join(parts, " "), Join(parts[1..], " ");
      assert joined[0] == parts[0][0] && joined[|joined| - 1] == tail[|tail| - 1];
    }
  }

  lemma {:induction false} JoinCharacters(parts: seq<string>, c: char)
    requires c in Join(parts, " ")
    ensures c == ' ' || exists k :: 0 <= k < |parts| && c in parts[k]
  {
    if |parts| > 1 && c !in parts[0] && c != ' ' {
      JoinCharacters(parts[1..], c);
      var k :| 0 <= k < |parts[1..]| && c in parts[1..][k];
      assert c in parts[k + 1];
    }
  }

  function LowerAll(parts: seq<string>): (r: seq<string>)
    ensures |r| == |parts|
  {
    seq(|parts|, k requires 0 <= k < |parts| => ToLower(parts[k]))
  }

  lemma LowerAllConcat(a: seq<string>, b: seq<string>)
    ensures LowerAll(a + b) == LowerAll(a) + LowerAll(b)
  {
  }

  lemma EmitLower(current: string)
    ensures Emit(ToLower(current)) == LowerAll(Emit(current))
  {
  }

  /** Splitting commutes with lower-casing. */
  lemma {:induction false} FieldsLower(current: string, s: string)
    ensures FieldsFrom(ToLower(current), ToLower(s)) == LowerAll(FieldsFrom(current, s))
    decreases s
  {
    if s == [] {
      EmitLower(current);
    } else {
      LowerKeepsSpace(s[0]);
      assert ToLower(s)[1..] == ToLower(s[1..]);
      if IsSpace(s[0]) {
        FieldsLower("", s[1..]);
        assert ToLower("") == "";
        EmitLower(current);
        LowerAllConcat(Emit(current), FieldsFrom("", s[1..]));
      } else {
        FieldsLower(current + [s[0]], s[1..]);
        LowerConcat(current, [s[0]]);
        assert ToLower([s[0]]) == [ToLower(s)[0]];
      }
    }
  }

  /** A separator that does not occur leaves the text in one piece. */
  lemma {:induction false} SplitWithout(s: string, separator: char)
    requires separator !in s
    ensures Split(s, separator) == [s]
  {
    if s != [] {
      SplitWithout(s[1..], separator);
      assert [s[0]] + s[1..] == s;
    }
  }

  /** Two pieces around one separator are found again. */
  lemma {:induction false} SplitPair(a: string, b: string, separator: char)
    requires separator !in a && separator !in b
    ensures Split(a + [separator] + b, separator) == [a, b]
  {
    var s := a + [separator] + b;
    if a == [] {
      assert s[1..] == b;
      SplitWithout(b, separator);
    } else {
      assert s[1..] == a[1..] + [separator] + b;
      SplitPair(a[1..], b, separator);
      assert [s[0]] + a[1..] == a;
    }
  }

  /** Splitting loses nothing: the pieces hold no separator, and joined with it they
      are the text. */
  lemma {:induction false} SplitMeaning(s: string, separator: char)
    ensures Join(Split(s, separator), [separator]) == s
    ensures forall k :: 0 <= k < |Split(s, separator)| ==> separator !in Split(s, separator)[k]
  {
    if s != [] {
      SplitMeaning(s[1..], separator);
      var rest := Split(s[1..], separator);
      if s[0] == separator {
        assert ([""] + rest)[1..] == rest;
        assert Join([""] + rest, [separator]) == "" + [separator] + Join(rest, [separator]);
        assert s == [separator] + s[1..];
      } else {
        JoinFirst([s[0]], rest, [separator]);
        assert s == [s[0]] + s[1..];
      }
    }
  }

  lemma JoinFirst(head: string, parts: seq<string>, separator: string)
    requires parts != []
    ensures Join([head + parts[0]] + parts[1..], separator) == head + Join(parts, separator)
  {
    var longer := [head + parts[0]] + parts[1..];
    assert longer[1..] == parts[1..];
    if |parts| > 1 {
      var rest := Join(parts[1..], separator);
      assert (head + parts[0]) + separator + rest == head + (parts[0] + separator + rest);
    }
  }
}
