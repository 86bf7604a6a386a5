/** String helpers with the meaning of the Python built-ins the system uses:
    `sep.join(items)`, `s.split(c)`, `s.strip()`, `sub in s`, `str(n)` and
    the `{n:03d}` format. */
module Text {

  /** The ASCII characters Python's `str.strip()` removes: space, tab,
      line feed, vertical tab, form feed, carriage return and the four
      separators 0x1C to 0x1F. */
  predicate IsSpace(ch: char) {
    ch == ' ' || ch == '\t' || ch == '\n' || ch == '\r' || ch == '\U{000B}' || ch == '\U{000C}' ||
    ('\U{001C}' <= ch <= '\U{001F}')
  }

  /** Every character of `s` is whitespace. */
  predicate AllSpace(s: string) {
    forall k :: 0 <= k < |s| ==> IsSpace(s[k])
  }

  /** A string with no leading and no trailing whitespace. */
  predicate Trimmed(s: string) {
    s == [] || (!IsSpace(s[0]) && !IsSpace(s[|s| - 1]))
  }

  function StripLeft(s: string): (r: string)
    ensures |r| <= |s|
    ensures r == [] || !IsSpace(r[0])
    ensures (s == [] || !IsSpace(s[0])) ==> r == s
  {
    if s == [] || !IsSpace(s[0]) then s else StripLeft(s[1..])
  }

  /** `StripLeft` keeps a suffix and cuts off whitespace only. */
  lemma {:induction false} StripLeftCut(s: string)
    ensures var n := |s| - |StripLeft(s)|; StripLeft(s) == s[n..] && AllSpace(s[..n])
  {
    if s != [] && IsSpace(s[0]) {
      var r := StripLeft(s[1..]);
      StripLeftCut(s[1..]);
      assert s[|s| - |r|..] == s[1..][|s| - 1 - |r|..];
      assert s[..|s| - |r|] == [s[0]] + s[1..][..|s| - 1 - |r|];
    }
  }

  function StripRight(s: string): (r: string)
    ensures |r| <= |s|
    ensures r == [] || !IsSpace(r[|r| - 1])
    ensures (s == [] || !IsSpace(s[|s| - 1])) ==> r == s
  {
    if s == [] || !IsSpace(s[|s| - 1]) then s else StripRight(s[..|s| - 1])
  }

  /** `StripRight` keeps a prefix and cuts off whitespace only. */
  lemma {:induction false} StripRightCut(s: string)
    ensures var n := |StripRight(s)|; StripRight(s) == s[..n] && AllSpace(s[n..])
    decreases |s|
  {
    if s != [] && IsSpace(s[|s| - 1]) {
      var r := StripRight(s[..|s| - 1]);
      StripRightCut(s[..|s| - 1]);
      assert s[..|r|] == s[..|s| - 1][..|r|];
      assert s[|r|..] == s[..|s| - 1][|r|..] + [s[|s| - 1]];
    }
  }

  /** Python's `s.strip()`. */
  function Strip(s: string): (r: string)
    ensures Trimmed(r)
    ensures Trimmed(s) ==> r == s
    ensures |r| <= |s|
  {
    var l := StripLeft(s);
    var r := StripRight(l);
    assert r == [] || !IsSpace(r[0]) by {
      if r != [] {
        StripRightCut(l);
        assert r[0] == l[0];
      }
    }
    r
  }

  /** `strip()` gives the slice of `s` left once whitespace, and only
      whitespace, is cut off at both ends. */
  lemma StripCut(s: string)
    ensures CutAt(s, Strip(s), |s| - |StripLeft(s)|)
  {
    var l := StripLeft(s);
    var r := StripRight(l);
    var i := |s| - |l|;
    assert Strip(s) == r;
    StripLeftCut(s);
    StripRightCut(l);
    assert r == s[i..i + |r|] by {
      assert l == s[i..] && r == l[..|r|];
    }
    assert s[i + |r|..] == l[|r|..] by {
      assert l == s[i..];
    }
  }

  /** `r` is `s` with its first `i` characters and everything after `r`
      cut off, and all that was cut off is whitespace. */
  predicate CutAt(s: string, r: string, i: nat) {
    i + |r| <= |s| && r == s[i..i + |r|] && AllSpace(s[..i]) && AllSpace(s[i + |r|..])
  }

  /** Python's `sep.join(items)`. */
  function Join(items: seq<string>, sep: string): string
  {
    if |items| == 0 then []
    else if |items| == 1 then items[0]
    else items[0] + sep + Join(items[1..], sep)
  }

  /** Joining two non-empty lists is joining each and putting one
      separator between them. */
  lemma {:induction false} JoinAppend(a: seq<string>, b: seq<string>, sep: string)
    requires a != [] && b != []
    ensures Join(a + b, sep) == Join(a, sep) + sep + Join(b, sep)
  {
    if |a| == 1 {
      assert (a + b)[1..] == b;
    } else {
      assert (a + b)[1..] == a[1..] + b;
      JoinAppend(a[1..], b, sep);
    }
  }

  /** A CSV line of double-quoted fields separated by commas. */
  function QuotedLine(fields: seq<string>): string {
    "\"" + Join(fields, "\",\"") + "\"\n"
  }

  /** Python's `s.split(c)` for a one-character separator: never empty. */
  function Split(s: string, c: char): (r: seq<string>)
    ensures |r| >= 1
  {
    if s == [] then [[]]
    else if s[0] == c then [[]] + Split(s[1..], c)
    else
      var rest := Split(s[1..], c);
      [[s[0]] + rest[0]] + rest[1..]
  }

  /** `[x.strip() for x in xs if x.strip()]` */
  function StripAndDrop(xs: seq<string>): (r: seq<string>)
    ensures |r| <= |xs|
    ensures forall i :: 0 <= i < |r| ==> r[i] != [] && Trimmed(r[i])
  {
    if xs == [] then []
    else
      var head, rest := Strip(xs[0]), StripAndDrop(xs[1..]);
      if head == [] then rest else [head] + rest
  }

  /** Every non-empty stripped input is kept. */
  lemma {:induction false} StrippedIsKept(xs: seq<string>, i: nat)
    requires i < |xs| && Strip(xs[i]) != []
    ensures Strip(xs[i]) in StripAndDrop(xs)
  {
    var tail, head := xs[1..], Strip(xs[0]);
    assert StripAndDrop(xs) == (if head == [] then [] else [head]) + StripAndDrop(tail);
    if i > 0 {
      assert tail[i - 1] == xs[i];
      StrippedIsKept(tail, i - 1);
    }
  }

  /** Every kept item is some input, stripped. */
  lemma {:induction false} KeptIsStripped(xs: seq<string>, x: string)
    requires x in StripAndDrop(xs)
    ensures exists i :: 0 <= i < |xs| && Strip(xs[i]) == x
  {
    var tail := xs[1..];
    if x == Strip(xs[0]) {
      assert Strip(xs[0]) == x;
    } else {
      assert x in StripAndDrop(tail);
      KeptIsStripped(tail, x);
      var j :| 0 <= j < |tail| && Strip(tail[j]) == x;
      assert xs[j + 1] == tail[j];
    }
  }

  /** The kept items are exactly the non-empty stripped inputs. */
  lemma StripAndDropMembers(xs: seq<string>)
    ensures forall x :: x in StripAndDrop(xs) <==> x != [] && exists i :: 0 <= i < |xs| && Strip(xs[i]) == x
  {
    forall x | x in StripAndDrop(xs)
      ensures exists i :: 0 <= i < |xs| && Strip(xs[i]) == x
    {
      KeptIsStripped(xs, x);
    }
    forall i | 0 <= i < |xs| && Strip(xs[i]) != []
      ensures Strip(xs[i]) in StripAndDrop(xs)
    {
      StrippedIsKept(xs, i);
    }
  }

  /** Stripping and dropping works item by item, so the kept items stay in
      their input order. */
  lemma {:induction false} StripAndDropAppend(a: seq<string>, b: seq<string>)
    ensures StripAndDrop(a + b) == StripAndDrop(a) + StripAndDrop(b)
  {
    if a != [] {
      var head := if Strip(a[0]) == [] then [] else [Strip(a[0])];
      assert (a + b)[0] == a[0] && (a + b)[1..] == a[1..] + b;
      assert StripAndDrop(a + b) == head + StripAndDrop(a[1..] + b);
      assert StripAndDrop(a) == head + StripAndDrop(a[1..]);
      StripAndDropAppend(a[1..], b);
      assert head + (StripAndDrop(a[1..]) + StripAndDrop(b)) == (head + StripAndDrop(a[1..])) + StripAndDrop(b);
    } else {
      assert a + b == b;
    }
  }

  /** `[x.strip() for x in s.split(",") if x.strip()]`: how a comma-joined
      list field is read back. */
  function SplitList(s: string): seq<string>
  {
    StripAndDrop(Split(s, ','))
  }

  predicate NoChar(s: string, c: char) {
    forall i :: 0 <= i < |s| ==> s[i] != c
  }

  /** How many times `c` occurs in `s`. */
  function CountChar(s: string, c: char): nat
    decreases |s|
  {
    if s == [] then 0 else CountChar(s[..|s| - 1], c) + (if s[|s| - 1] == c then 1 else 0)
  }

  lemma {:induction false} CountAppend(a: string, b: string, c: char)
    ensures CountChar(a + b, c) == CountChar(a, c) + CountChar(b, c)
    decreases |b|
  {
    if b == [] {
      assert a + b == a;
    } else {
      assert (a + b)[..|a + b| - 1] == a + b[..|b| - 1];
      CountAppend(a, b[..|b| - 1], c);
    }
  }

  lemma {:induction false} NoCharCount(s: string, c: char)
    requires NoChar(s, c)
    ensures CountChar(s, c) == 0
    decreases |s|
  {
    if s != [] {
      NoCharCount(s[..|s| - 1], c);
    }
  }

  /** Joining items that lack `c` with a separator that lacks it gives a
      string that lacks it. */
  lemma {:induction false} JoinNoChar(items: seq<string>, sep: string, c: char)
    requires NoChar(sep, c)
    requires forall i :: 0 <= i < |items| ==> NoChar(items[i], c)
    ensures NoChar(Join(items, sep), c)
    decreases |items|
  {
    if |items| > 1 {
      JoinNoChar(items[1..], sep, c);
      var rest := Join(items[1..], sep);
      assert Join(items, sep) == items[0] + sep + rest;
      assert forall i :: 0 <= i < |items[0] + sep + rest| ==>
        (items[0] + sep + rest)[i] == (if i < |items[0]| then items[0][i]
                                       else if i < |items[0]| + |sep| then sep[i - |items[0]|]
                                       else rest[i - |items[0]| - |sep|]);
    }
  }

  /** An item that survives a comma join followed by a split, strip and drop. */
  predicate CleanItem(s: string) {
    s != [] && Trimmed(s) && NoChar(s, ',')
  }

  lemma {:induction false} SplitNoSeparator(w: string, rest: string, c: char)
    requires NoChar(w, c)
    ensures Split(w + rest, c) == [w + Split(rest, c)[0]] + Split(rest, c)[1..]
  {
    if w != [] {
      assert (w + rest)[0] == w[0];
      assert (w + rest)[1..] == w[1..] + rest;
      SplitNoSeparator(w[1..], rest, c);
      assert [w[0]] + (w[1..] + Split(rest, c)[0]) == w + Split(rest, c)[0];
    } else {
      var parts := Split(rest, c);
      assert w + rest == rest;
      assert w + parts[0] == parts[0];
      assert [parts[0]] + parts[1..] == parts;
    }
  }

  /** Splitting a join recovers the items when no item holds the separator. */
  lemma {:induction false} SplitJoin(items: seq<string>, c: char)
    requires |items| >= 1
    requires forall i :: 0 <= i < |items| ==> NoChar(items[i], c)
    ensures Split(Join(items, [c]), c) == items
  {
    if |items| == 1 {
      SplitNoSeparator(items[0], [], c);
      assert items[0] + [] == items[0];
    } else {
      var tail := Join(items[1..], [c]);
      assert Join(items, [c]) == items[0] + ([c] + tail);
      SplitNoSeparator(items[0], [c] + tail, c);
      assert ([c] + tail)[1..] == tail;
      SplitJoin(items[1..], c);
      assert Split([c] + tail, c) == [[]] + items[1..];
      assert items[0] + [] == items[0];
      assert [items[0]] + items[1..] == items;
    }
  }

  lemma {:induction false} StripAndDropClean(items: seq<string>)
    requires forall i :: 0 <= i < |items| ==> items[i] != [] && Trimmed(items[i])
    ensures StripAndDrop(items) == items
  {
    if items != [] {
      StripAndDropClean(items[1..]);
      assert [items[0]] + items[1..] == items;
    }
  }

  /** A comma-joined list of clean items is read back unchanged. */
  lemma SplitListJoin(items: seq<string>)
    requires forall i :: 0 <= i < |items| ==> CleanItem(items[i])
    ensures SplitList(Join(items, ",")) == items
  {
    if items == [] {
      assert Split([], ',') == [[]];
      assert Strip([]) == [];
    } else {
      SplitJoin(items, ',');
      StripAndDropClean(items);
    }
  }

  /** `sub` occurs in `s` starting at position `k`. */
  predicate OccursAt(s: string, sub: string, k: nat) {
    k + |sub| <= |s| && s[k..k + |sub|] == sub
  }

  /** Python's `sub in s` on strings. */
  predicate Contains(s: string, sub: string) {
    exists k: nat | k <= |s| :: OccursAt(s, sub, k)
  }

  /** A string that contains a non-empty `sub` holds its first character. */
  lemma ContainsFirst(s: string, sub: string)
    requires sub != [] && Contains(s, sub)
    ensures sub[0] in s
  {
    var k: nat :| k <= |s| && OccursAt(s, sub, k);
    assert s[k] == s[k..k + |sub|][0];
  }

  /** A string without the first character of `sub` does not contain it. */
  lemma Lacks(s: string, sub: string)
    requires sub != [] && forall i :: 0 <= i < |s| ==> s[i] != sub[0]
    ensures !Contains(s, sub)
  {
    if Contains(s, sub) {
      ContainsFirst(s, sub);
    }
  }

  function DigitChar(d: nat): (ch: char)
    requires d < 10
    ensures '0' <= ch <= '9'
  {
    "0123456789"[d]
  }

  /** Python's `str(n)` for a non-negative integer. */
  function NatToString(n: nat): (r: string)
    ensures |r| >= 1
    ensures forall i :: 0 <= i < |r| ==> '0' <= r[i] <= '9'
    ensures n < 10 ==> |r| == 1
    ensures 10 <= n < 100 ==> |r| == 2
    ensures 100 <= n < 1000 ==> |r| == 3
    ensures n >= 1000 ==> |r| >= 4
  {
    if n < 10 then [DigitChar(n)] else NatToString(n / 10) + [DigitChar(n % 10)]
  }

  function Zeros(k: nat): (r: string)
    ensures |r| == k && forall i :: 0 <= i < k ==> r[i] == '0'
  {
    if k == 0 then [] else "0" + Zeros(k - 1)
  }

  /** Python's `f"{n:03d}"`: decimal, left-padded with zeros to width 3. */
  function Pad3(n: nat): (r: string)
    ensures |r| >= 3
    ensures forall i :: 0 <= i < |r| ==> '0' <= r[i] <= '9'
  {
    var s := NatToString(n);
    if |s| >= 3 then s else Zeros(3 - |s|) + s
  }

  /** The number a string of decimal digits denotes. */
  function DigitsValue(s: string): nat
  {
    if s == [] then 0
    else DigitsValue(s[..|s| - 1]) * 10 + (if '0' <= s[|s| - 1] <= '9' then (s[|s| - 1] as int - '0' as int) else 0)
  }

  lemma {:induction false} NatToStringValue(n: nat)
    ensures DigitsValue(NatToString(n)) == n
  {
    if n >= 10 {
      var s := NatToString(n);
      assert s[..|s| - 1] == NatToString(n / 10);
      NatToStringValue(n / 10);
    }
  }

  lemma {:induction false} ZerosValue(k: nat, s: string)
    ensures DigitsValue(Zeros(k) + s) == DigitsValue(s)
    decreases |s|, k
  {
    if s == [] {
      assert Zeros(k) + s == Zeros(k);
      if k > 0 {
        assert Zeros(k)[..k - 1] == Zeros(k - 1);
        ZerosValue(k - 1, []);
        assert Zeros(k - 1) + [] == Zeros(k - 1);
      }
    } else {
      assert (Zeros(k) + s)[..|Zeros(k) + s| - 1] == Zeros(k) + s[..|s| - 1];
      ZerosValue(k, s[..|s| - 1]);
    }
  }

  /** The padded form denotes the number itself. */
  lemma Pad3Value(n: nat)
    ensures DigitsValue(Pad3(n)) == n
  {
    NatToStringValue(n);
    var s := NatToString(n);
    if |s| < 3 {
      ZerosValue(3 - |s|, s);
    }
  }

  /** Distinct numbers have distinct padded forms. */
  lemma Pad3Injective(n: nat, m: nat)
    requires Pad3(n) == Pad3(m)
    ensures n == m
  {
    Pad3Value(n);
    Pad3Value(m);
  }
}
