/** Text operations the source takes from Go's `strings` package: splitting and
    joining on one character, ASCII lower-casing, prefix trimming, case folding
    and the code-point order behind `sort.Strings`. */
module Text {

  // ---------------------------------------------------------------- splitting

  /** `strings.Split(s, sep)` for a one-character separator. */
  function Split(s: string, sep: char): (parts: seq<string>)
    ensures |parts| >= 1
    ensures forall i :: 0 <= i < |parts| ==> sep !in parts[i]
  {
    if s == "" then [""]
    else
      var rest := Split(s[1..], sep);
      if s[0] == sep then [""] + rest else [[s[0]] + rest[0]] + rest[1..]
  }

  /** `strings.Join(parts, sep)`. */
  function Join(parts: seq<string>, sep: char): string {
    if parts == [] then ""
    else if |parts| == 1 then parts[0]
    else parts[0] + [sep] + Join(parts[1..], sep)
  }

  lemma {:induction false} JoinSplit(s: string, sep: char)
    ensures Join(Split(s, sep), sep) == s
  {
    if s != "" {
      var rest := Split(s[1..], sep);
      JoinSplit(s[1..], sep);
      if s[0] == sep {
        assert Split(s, sep) == [""] + rest;
        assert ([""] + rest)[1..] == rest;
        assert Join(Split(s, sep), sep) == [sep] + s[1..];
      } else {
        var parts := [[s[0]] + rest[0]] + rest[1..];
        assert parts[1..] == rest[1..];
        if |rest| == 1 {
          assert Join(parts, sep) == [s[0]] + rest[0];
        } else {
          assert Join(parts, sep) == [s[0]] + rest[0] + [sep] + Join(rest[1..], sep);
          assert Join(rest, sep) == rest[0] + [sep] + Join(rest[1..], sep);
          assert Join(parts, sep) == [s[0]] + Join(rest, sep);
        }
      }
    }
  }

  lemma {:induction false} SplitHead(head: string, tail: string, sep: char)
    requires sep !in head
    ensures Split(head + [sep] + tail, sep) == [head] + Split(tail, sep)
  {
    var s := head + [sep] + tail;
    if head == "" {
      assert s[1..] == tail;
    } else {
      assert s[1..] == head[1..] + [sep] + tail;
      SplitHead(head[1..], tail, sep);
      assert s[0] == head[0] && s[0] in head;
      assert [head[0]] + head[1..] == head;
    }
  }

  lemma {:induction false} SplitWhole(s: string, sep: char)
    requires sep !in s
    ensures Split(s, sep) == [s]
  {
    if s != "" {
      SplitWhole(s[1..], sep);
      assert s[0] in s;
      assert [s[0]] + s[1..] == s;
    }
  }

  /** Splitting undoes joining exactly when no part holds the separator. */
  lemma {:induction false} SplitJoin(parts: seq<string>, sep: char)
    requires parts != []
    ensures Split(Join(parts, sep), sep) == parts <==> forall i :: 0 <= i < |parts| ==> sep !in parts[i]
  {
    if forall i :: 0 <= i < |parts| ==> sep !in parts[i] {
      SplitJoinClean(parts, sep);
    }
  }

  lemma {:induction false} SplitJoinClean(parts: seq<string>, sep: char)
    requires parts != []
    requires forall i :: 0 <= i < |parts| ==> sep !in parts[i]
    ensures Split(Join(parts, sep), sep) == parts
  {
    if |parts| == 1 {
      SplitWhole(parts[0], sep);
    } else {
      SplitHead(parts[0], Join(parts[1..], sep), sep);
      SplitJoinClean(parts[1..], sep);
      assert [parts[0]] + parts[1..] == parts;
    }
  }

  // ------------------------------------------------------------------- prefix

  /** `strings.TrimPrefix`: removes one leading occurrence, if there is one. */
  function TrimPrefix(s: string, prefix: string): string {
    if prefix <= s then s[|prefix|..] else s
  }

  // --------------------------------------------------------------------- case

  function LowerChar(c: char): char {
    if 'A' <= c <= 'Z' then (c as int + 32) as char else c
  }

  /** `strings.ToLower` on text whose upper-case letters are all ASCII. */
  function Lower(s: string): (r: string)
    ensures |r| == |s|
    ensures forall i :: 0 <= i < |s| ==> r[i] == LowerChar(s[i])
  {
    seq(|s|, i requires 0 <= i < |s| => LowerChar(s[i]))
  }

  lemma LowerIdempotent(s: string)
    ensures Lower(Lower(s)) == Lower(s)
  {
  }

  // ------------------------------------------------------------- case folding

  predicate IsAscii(c: char) {
    c as int < 128
  }

  const KELVIN: char := '\U{212A}'
  const LONG_S: char := '\U{017F}'

  /** What is assumed of the part of Unicode simple folding that lies wholly
      outside ASCII: it stays outside ASCII. */
  ghost predicate FoldsOutsideAscii(foldOther: char -> char) {
    forall c :: !IsAscii(c) ==> !IsAscii(foldOther(c))
  }

  /** The representative of a character's simple-folding orbit. Besides the ASCII
      letters only the Kelvin sign and the long s fold into ASCII. */
  function FoldChar(foldOther: char -> char, c: char): char {
    if IsAscii(c) then LowerChar(c)
    else if c == KELVIN then 'k'
    else if c == LONG_S then 's'
    else foldOther(c)
  }

  /** `strings.EqualFold`. */
  predicate EqualFold(foldOther: char -> char, a: string, b: string) {
    |a| == |b| && forall i :: 0 <= i < |a| ==> FoldChar(foldOther, a[i]) == FoldChar(foldOther, b[i])
  }

  /** Equality up to the case of ASCII letters. */
  predicate SameAsciiCaseless(a: string, b: string) {
    Lower(a) == Lower(b)
  }

  /** An ASCII text without the two letters that have a folding partner outside ASCII. */
  predicate FoldSafe(s: string) {
    forall i :: 0 <= i < |s| ==> IsAscii(s[i]) && LowerChar(s[i]) != 'k' && LowerChar(s[i]) != 's'
  }

  lemma CaselessFolds(foldOther: char -> char, a: string, b: string)
    requires SameAsciiCaseless(a, b)
    ensures EqualFold(foldOther, a, b)
  {
    assert |Lower(a)| == |Lower(b)|;
    forall i | 0 <= i < |a| ensures FoldChar(foldOther, a[i]) == FoldChar(foldOther, b[i]) {
      assert Lower(a)[i] == Lower(b)[i];
    }
  }

  lemma FoldSafeIsCaseless(foldOther: char -> char, a: string, b: string)
    requires FoldsOutsideAscii(foldOther)
    requires FoldSafe(b)
    ensures EqualFold(foldOther, a, b) <==> SameAsciiCaseless(a, b)
  {
    if SameAsciiCaseless(a, b) {
      CaselessFolds(foldOther, a, b);
    }
    if EqualFold(foldOther, a, b) {
      forall i | 0 <= i < |a| ensures Lower(a)[i] == Lower(b)[i] {
        assert FoldChar(foldOther, a[i]) == FoldChar(foldOther, b[i]);
      }
    }
  }

  /** For an ASCII text, folding equality means equality up to ASCII case for every
      other text exactly when the text holds neither k nor s. */
  lemma FoldIsCaselessIff(foldOther: char -> char, b: string)
    requires FoldsOutsideAscii(foldOther)
    requires forall i :: 0 <= i < |b| ==> IsAscii(b[i])
    ensures (forall a :: EqualFold(foldOther, a, b) ==> SameAsciiCaseless(a, b)) <==> FoldSafe(b)
  {
    if FoldSafe(b) {
      forall a | EqualFold(foldOther, a, b) ensures SameAsciiCaseless(a, b) {
        FoldSafeIsCaseless(foldOther, a, b);
      }
    } else {
      var i :| 0 <= i < |b| && (LowerChar(b[i]) == 'k' || LowerChar(b[i]) == 's');
      var a := b[i := if LowerChar(b[i]) == 'k' then KELVIN else LONG_S];
      assert EqualFold(foldOther, a, b);
      assert Lower(a)[i] != Lower(b)[i];
    }
  }

  // -------------------------------------------------------------------- order

  /** The order of `sort.Strings` on well-formed text: UTF-8 keeps code-point order. */
  predicate Less(a: string, b: string) {
    if b == "" then false
    else if a == "" then true
    else a[0] < b[0] || (a[0] == b[0] && Less(a[1..], b[1..]))
  }

  lemma {:induction false} LessTotal(a: string, b: string)
    ensures a == b || Less(a, b) || Less(b, a)
  {
    if a != "" && b != "" && a[0] == b[0] {
      LessTotal(a[1..], b[1..]);
      assert [a[0]] + a[1..] == a && [b[0]] + b[1..] == b;
    }
  }

  lemma {:induction false} LessAsymmetric(a: string, b: string)
    requires Less(a, b)
    ensures !Less(b, a)
  {
    if a != "" && a[0] == b[0] {
      LessAsymmetric(a[1..], b[1..]);
    }
  }

  lemma {:induction false} LessCotransitive(a: string, b: string, c: string)
    requires Less(a, b)
    ensures Less(a, c) || Less(c, b)
  {
    if a != "" && c != "" && a[0] == b[0] == c[0] {
      LessCotransitive(a[1..], b[1..], c[1..]);
    }
  }
}
