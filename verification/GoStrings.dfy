/** The parts of Go's strings and strconv packages that the modelled code calls, as
    functions on sequences of Unicode scalar values. Case mapping is ASCII only. */
module GoStrings {

  datatype Option<+T> = None | Some(value: T) {
    function Or(default: T): T {
      if None? then default else value
    }
  }

  // ---- searching and trimming ----

  /** Position of the first c in s, or |s| when s has none. */
  function IndexOf(s: string, c: char): (k: nat)
    ensures k <= |s|
    ensures c !in s[..k]
    ensures k < |s| ==> s[k] == c
  {
    if s == "" || s[0] == c then 0 else
      assert s[..1 + IndexOf(s[1..], c)] == [s[0]] + s[1..][..IndexOf(s[1..], c)];
      1 + IndexOf(s[1..], c)
  }

  lemma IndexOfPast(p: string, s: string, c: char)
    requires c !in p
    ensures IndexOf(p + s, c) == |p| + IndexOf(s, c)
  {
    if p == "" {
      assert p + s == s;
    } else {
      assert (p + s)[1..] == p[1..] + s;
      IndexOfPast(p[1..], s, c);
    }
  }

  predicate HasPrefix(s: string, prefix: string) {
    prefix <= s
  }

  predicate HasSuffix(s: string, suffix: string) {
    |suffix| <= |s| && s[|s| - |suffix|..] == suffix
  }

  predicate Contains(s: string, sub: string) {
    sub <= s || (s != "" && Contains(s[1..], sub))
  }

  predicate IsSpace(c: char) {
    || c == ' ' || '\t' <= c <= '\r' || c == '\U{85}' || c == '\U{A0}' || c == '\U{1680}'
    || '\U{2000}' <= c <= '\U{200A}' || c == '\U{2028}' || c == '\U{2029}'
    || c == '\U{202F}' || c == '\U{205F}' || c == '\U{3000}'
  }

  function TrimLeft(s: string): string {
    if s != "" && IsSpace(s[0]) then TrimLeft(s[1..]) else s
  }

  function TrimRight(s: string): string {
    if s != "" && IsSpace(s[|s| - 1]) then TrimRight(s[..|s| - 1]) else s
  }

  function TrimSpace(s: string): string {
    TrimRight(TrimLeft(s))
  }

  function TrimSuffix(s: string, suffix: string): string {
    if HasSuffix(s, suffix) then s[..|s| - |suffix|] else s
  }

  function LowerChar(c: char): char {
    if 'A' <= c <= 'Z' then (c as int + 32) as char else c
  }

  function ToLower(s: string): (t: string)
    ensures |t| == |s|
    ensures forall i | 0 <= i < |s| :: t[i] == LowerChar(s[i])
  {
    seq(|s|, i requires 0 <= i < |s| => LowerChar(s[i]))
  }

  predicate EqualFold(s: string, t: string) {
    ToLower(s) == ToLower(t)
  }

  /** A text begins with a prefix, ends with a suffix or contains a part if and only if it can be cut accordingly. */
  lemma PartsMean(s: string, t: string)
    ensures HasPrefix(s, t) <==> exists rest :: s == t + rest
    ensures HasSuffix(s, t) <==> exists head :: s == head + t
    ensures Contains(s, t) <==> exists head, rest :: s == head + t + rest
  {
    if t <= s { assert s == t + s[|t|..]; }
    if HasSuffix(s, t) { assert s == s[..|s| - |t|] + t; }
    ContainsMeans(s, t);
  }

  lemma {:induction false} ContainsMeans(s: string, t: string)
    ensures Contains(s, t) <==> exists head, rest :: s == head + t + rest
  {
    if t <= s {
      assert s == "" + t + s[|t|..];
    } else if s != "" {
      ContainsMeans(s[1..], t);
      if head, rest :| s[1..] == head + t + rest {
        assert s == ([s[0]] + head) + t + rest;
      }
      if head, rest :| s == head + t + rest {
        assert head == "" ==> s == t + rest;
        assert s[1..] == head[1..] + t + rest;
      }
    }
  }

  /** The white space of Unicode by code point. */
  lemma SpacesByCode(c: char)
    ensures IsSpace(c) <==>
      c as int in {9, 10, 11, 12, 13, 32, 133, 160, 5760, 8192, 8193, 8194, 8195, 8196, 8197, 8198, 8199, 8200, 8201,
                   8202, 8232, 8233, 8239, 8287, 12288}
  {
    assert ' ' as int == 32 && '\t' as int == 9 && '\r' as int == 13;
  }

  const CAPITALS := "ABCDEFGHIJKLMNOPQRSTUVWXYZ"

  const SMALL_LETTERS := "abcdefghijklmnopqrstuvwxyz"

  /** Lower case turns each capital into its small letter and leaves the other characters alone; texts that have the
      same lower case are equal up to it. */
  lemma LowerByLetter(c: char, i: nat)
    ensures |CAPITALS| == 26 && |SMALL_LETTERS| == 26
    ensures i < 26 ==> ToLower([CAPITALS[i]]) == [SMALL_LETTERS[i]]
    ensures c !in CAPITALS ==> ToLower([c]) == [c]
  {
    if 'A' <= c <= 'Z' { assert CAPITALS[c as int - 'A' as int] == c; }
    if i < 26 { assert CAPITALS[i] as int == 'A' as int + i && SMALL_LETTERS[i] as int == 'a' as int + i; }
  }

  lemma FoldIsLower(s: string, t: string)
    ensures EqualFold(s, t) <==> |s| == |t| && forall i :: 0 <= i < |s| ==> ToLower([s[i]]) == ToLower([t[i]])
  {
    if |s| == |t| {
      forall i | 0 <= i < |s| ensures ToLower([s[i]]) == ToLower([t[i]]) <==> ToLower(s)[i] == ToLower(t)[i] {
        assert ToLower([s[i]])[0] == LowerChar(s[i]) && ToLower([t[i]])[0] == LowerChar(t[i]);
      }
    } else {
      assert |ToLower(s)| != |ToLower(t)|;
    }
  }

  /** The last dot-separated segment of a parameter path. */
  function Leaf(path: string): (leaf: string)
    ensures '.' !in leaf
  {
    if path == "" || path[|path| - 1] == '.' then "" else Leaf(path[..|path| - 1]) + [path[|path| - 1]]
  }

  lemma {:induction false} LeafOfPath(prefix: string, leaf: string)
    requires '.' !in leaf
    ensures Leaf(prefix + "." + leaf) == leaf
  {
    var path := prefix + "." + leaf;
    if leaf != "" {
      var n := |leaf| - 1;
      assert path[..|path| - 1] == prefix + "." + leaf[..n];
      LeafOfPath(prefix, leaf[..n]);
      assert leaf == leaf[..n] + [leaf[n]];
    }
  }

  /** The last dot-separated segment of name reads leaf. */
  predicate Named(name: string, leaf: string) {
    name == leaf || HasSuffix(name, "." + leaf)
  }

  lemma {:induction false} LeafEnds(path: string)
    ensures path == Leaf(path) || HasSuffix(path, "." + Leaf(path))
  {
    if path != "" && path[|path| - 1] != '.' {
      var n := |path| - 1;
      var init, tail := path[..n], "." + Leaf(path[..n]);
      LeafEnds(init);
      assert path == init + [path[n]] && Leaf(path) == Leaf(init) + [path[n]];
      if HasSuffix(init, tail) {
        assert tail + [path[n]] == "." + Leaf(path);
        assert path == init[..n - |tail|] + tail + [path[n]];
        assert path == init[..n - |tail|] + ("." + Leaf(path));
      }
    } else if path != "" {
      assert path[|path| - 1..] == "." + Leaf(path);
    }
  }

  /** Leaf reads off the last segment. */
  lemma LeafIsNamed(name: string, leaf: string)
    requires '.' !in leaf
    ensures Leaf(name) == leaf <==> Named(name, leaf)
  {
    LeafEnds(name);
    if name == leaf {
      WholeLeaf(leaf);
    } else if HasSuffix(name, "." + leaf) {
      var prefix := name[..|name| - |leaf| - 1];
      assert name == prefix + ("." + leaf) == prefix + "." + leaf;
      LeafOfPath(prefix, leaf);
    }
  }

  lemma {:induction false} WholeLeaf(leaf: string)
    requires '.' !in leaf
    ensures Leaf(leaf) == leaf
  {
    if leaf != "" {
      WholeLeaf(leaf[..|leaf| - 1]);
      assert leaf == leaf[..|leaf| - 1] + [leaf[|leaf| - 1]];
    }
  }

  // ---- ReplaceAll ----

  /** Non-overlapping replacement, left to right, of a non-empty old. */
  function ReplaceAll(s: string, old': string, new': string): string
    requires old' != ""
  {
    if s == "" then ""
    else if old' <= s then new' + ReplaceAll(s[|old'|..], old', new')
    else [s[0]] + ReplaceAll(s[1..], old', new')
  }

  /** Replacement at the first place where the old text begins. */
  lemma {:induction false} ReplaceAtFirst(head: string, old': string, rest: string, new': string)
    requires old' != "" && forall i :: 0 <= i < |head| ==> !(old' <= (head + old' + rest)[i..])
    ensures ReplaceAll(head + old' + rest, old', new') == head + new' + ReplaceAll(rest, old', new')
  {
    var s := head + old' + rest;
    if head == "" {
      assert s[|old'|..] == rest;
    } else {
      var tail := head[1..] + old' + rest;
      assert s[0..] == s && s[1..] == tail;
      forall i | 0 <= i < |head[1..]| ensures !(old' <= tail[i..]) {
        assert tail[i..] == s[i + 1..];
      }
      ReplaceAtFirst(head[1..], old', rest, new');
      StepOver(s, old', new');
      assert [s[0]] + (head[1..] + new' + ReplaceAll(rest, old', new')) == head + new' + ReplaceAll(rest, old', new');
    }
  }

  lemma StepOver(s: string, old': string, new': string)
    requires s != "" && old' != "" && !(old' <= s)
    ensures ReplaceAll(s, old', new') == [s[0]] + ReplaceAll(s[1..], old', new')
  {
  }

  /** A text that does not contain the old one stays. */
  lemma {:induction false} ReplaceNothing(s: string, old': string, new': string)
    requires old' != "" && !Contains(s, old')
    ensures ReplaceAll(s, old', new') == s
  {
    if s != "" { ReplaceNothing(s[1..], old', new'); }
  }

  // ---- decimal numbers ----

  predicate IsDigit(c: char) {
    '0' <= c <= '9'
  }

  predicate AllDigits(s: string) {
    forall c | c in s :: IsDigit(c)
  }

  function Digit(d: nat): (c: char)
    requires d < 10
    ensures IsDigit(c)
  {
    ('0' as int + d) as char
  }

  function NatToString(n: nat): string {
    if n < 10 then [Digit(n)] else NatToString(n / 10) + [Digit(n % 10)]
  }

  lemma {:induction false} NatToStringDigits(n: nat)
    ensures NatToString(n) != "" && AllDigits(NatToString(n))
  {
    if n >= 10 { NatToStringDigits(n / 10); }
  }

  function DigitsValue(s: string): nat
    requires AllDigits(s)
  {
    if s == "" then 0 else
      assert IsDigit(s[|s| - 1]);
      DigitsValue(s[..|s| - 1]) * 10 + (s[|s| - 1] as int - '0' as int)
  }

  lemma {:induction false} DigitsOfNat(n: nat)
    ensures NatToString(n) != "" && AllDigits(NatToString(n)) && DigitsValue(NatToString(n)) == n
  {
    var s := NatToString(n);
    NatToStringDigits(n);
    if n >= 10 {
      DigitsOfNat(n / 10);
      assert s[..|s| - 1] == NatToString(n / 10);
    } else {
      assert s[..|s| - 1] == "";
    }
  }

  /** strconv.Itoa. */
  function Itoa(n: int): string {
    if n < 0 then "-" + NatToString(-n) else NatToString(n)
  }

  lemma ItoaChars(n: int)
    ensures Itoa(n) != ""
    ensures forall c | c in Itoa(n) :: IsDigit(c) || c == '-'
  {
    NatToStringDigits(if n < 0 then -n else n);
  }

  /** strconv.Atoi without the 64-bit range check. */
  function Atoi(s: string): Option<int> {
    if s == "" then None
    else if s[0] == '-' then
      if |s| > 1 && AllDigits(s[1..]) then Some(0 - DigitsValue(s[1..]) as int) else None
    else if s[0] == '+' then
      if |s| > 1 && AllDigits(s[1..]) then Some(DigitsValue(s[1..])) else None
    else if AllDigits(s) then Some(DigitsValue(s)) else None
  }

  lemma AtoiOfItoa(n: int)
    ensures Atoi(Itoa(n)) == Some(n)
  {
    if n < 0 {
      DigitsOfNat(-n);
      assert Itoa(n)[1..] == NatToString(-n);
    } else {
      DigitsOfNat(n);
      assert Itoa(n)[0] in NatToString(n);
    }
  }

  const DECIMALS := "0123456789"

  /** Printing a number, digit by digit. */
  lemma ItoaByDigit(n: int, d: nat)
    requires d < 10
    ensures Itoa(d) == [DECIMALS[d]]
    ensures n > 0 ==> Itoa(10 * n + d) == Itoa(n) + [DECIMALS[d]] && Itoa(-n) == "-" + Itoa(n)
  {
    assert DECIMALS[d] as int == '0' as int + d;
    assert Digit(d) == DECIMALS[d];
  }

  /** Reading a number without a sign, digit by digit. */
  lemma AtoiByDigit(s: string, c: char, d: nat)
    requires d < 10
    ensures Atoi("") == None && Atoi([DECIMALS[d]]) == Some(d)
    ensures s != "" && s[0] != '+' && s[0] != '-' && Atoi(s).Some? ==>
      Atoi(s + [DECIMALS[d]]) == Some(10 * Atoi(s).value + d)
    ensures c in s && c !in DECIMALS && s[0] != '+' && s[0] != '-' ==> Atoi(s) == None
  {
    DecimalsAreDigits(c);
    DecimalsAreDigits(DECIMALS[d]);
    assert DECIMALS[d] as int == '0' as int + d;
    OneMoreDigit("", DECIMALS[d]);
    assert "" + [DECIMALS[d]] == [DECIMALS[d]];
    if s != "" && AllDigits(s) {
      OneMoreDigit(s, DECIMALS[d]);
      assert (s + [DECIMALS[d]])[0] == s[0];
    }
  }

  lemma OneMoreDigit(s: string, c: char)
    requires AllDigits(s) && IsDigit(c)
    ensures AllDigits(s + [c]) && DigitsValue(s + [c]) == DigitsValue(s) * 10 + (c as int - '0' as int)
  {
    assert (s + [c])[..|s|] == s && (s + [c])[|s|] == c;
  }

  /** One sign in front is taken off, and a sign is no number. */
  lemma AtoiOfSigned(s: string)
    requires s == "" || (s[0] != '+' && s[0] != '-')
    ensures Atoi("+" + s) == Atoi(s)
    ensures Atoi("-" + s) == if Atoi(s).Some? then Some(-Atoi(s).value) else None
  {
    assert ("+" + s)[1..] == s && ("-" + s)[1..] == s;
  }

  lemma DecimalsAreDigits(c: char)
    ensures IsDigit(c) <==> c in DECIMALS
  {
    if IsDigit(c) { assert DECIMALS[c as int - '0' as int] == c; }
  }

  lemma ItoaInjective(m: int, n: int)
    requires Itoa(m) == Itoa(n)
    ensures m == n
  {
    AtoiOfItoa(m);
    AtoiOfItoa(n);
  }

  // ---- ordering ----

  /** Go's < on strings. Byte order on UTF-8 is scalar-value order. */
  predicate StringLess(s: string, t: string) {
    t != "" && (s == "" || s[0] < t[0] || (s[0] == t[0] && StringLess(s[1..], t[1..])))
  }

  /** s comes before t exactly when t goes on where s ends, or at the first position where they differ s has the
      smaller character. */
  lemma {:induction false} StringLessIff(s: string, t: string)
    ensures StringLess(s, t) <==>
      (s <= t && |s| < |t|) || exists k: nat :: FirstDifference(s, t, k) && s[k] < t[k]
  {
    if s != "" && t != "" && s[0] == t[0] {
      StringLessIff(s[1..], t[1..]);
      assert s == [s[0]] + s[1..] && t == [t[0]] + t[1..];
      DifferenceShifts(s, t);
    } else if s != "" && t != "" {
      assert s[..0] == t[..0];
      if s[0] < t[0] { assert FirstDifference(s, t, 0); }
      SameHead(s, t);
    }
  }

  lemma SameHead(s: string, t: string)
    requires s != "" && t != ""
    ensures forall k: nat | FirstDifference(s, t, k) && k > 0 :: s[0] == t[0]
  {
    forall k: nat | FirstDifference(s, t, k) && k > 0 ensures s[0] == t[0] {
      assert s[..k][0] == t[..k][0];
    }
  }

  predicate FirstDifference(s: string, t: string, k: nat) {
    k < |s| && k < |t| && s[..k] == t[..k] && s[k] != t[k]
  }

  lemma DifferenceShifts(s: string, t: string)
    requires s != "" && t != "" && s[0] == t[0]
    ensures (exists k: nat :: FirstDifference(s, t, k) && s[k] < t[k]) <==>
      exists k: nat :: FirstDifference(s[1..], t[1..], k) && s[1..][k] < t[1..][k]
  {
    if k: nat :| FirstDifference(s, t, k) && s[k] < t[k] {
      assert k > 0 && s[1..][..k - 1] == s[..k][1..] && t[1..][..k - 1] == t[..k][1..];
      assert FirstDifference(s[1..], t[1..], k - 1) && s[1..][k - 1] < t[1..][k - 1];
    }
    if k: nat :| FirstDifference(s[1..], t[1..], k) && s[1..][k] < t[1..][k] {
      assert s[..k + 1] == [s[0]] + s[1..][..k] && t[..k + 1] == [t[0]] + t[1..][..k];
      assert FirstDifference(s, t, k + 1) && s[k + 1] < t[k + 1];
    }
  }

  lemma StringLessTotal(s: string, t: string)
    ensures StringLess(s, t) || s == t || StringLess(t, s)
  {
    if s != "" && t != "" && s[0] == t[0] {
      StringLessTotal(s[1..], t[1..]);
      assert s == [s[0]] + s[1..] && t == [t[0]] + t[1..];
    }
  }

  lemma StringLessTransitive(s: string, t: string, u: string)
    requires StringLess(s, t) && StringLess(t, u)
    ensures StringLess(s, u)
  {
    if s != "" && s[0] == t[0] == u[0] {
      StringLessTransitive(s[1..], t[1..], u[1..]);
    }
  }

  lemma StringLessIrreflexive(s: string)
    ensures !StringLess(s, s)
  {
    if s != "" {
      StringLessIrreflexive(s[1..]);
    }
  }
}
