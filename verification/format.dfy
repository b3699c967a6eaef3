/** `format_thousand_separator` of src/main.rs: decimal text with a comma between
    groups of three digits, counted from the right. */
module Format {
  import opened Common

  /** A digit string grouped in threes from the right, a comma between groups. */
  function Sep(ds: string): string
    decreases |ds|
  {
    if |ds| <= 3 then ds else Sep(ds[..|ds| - 3]) + "," + ds[|ds| - 3..]
  }

  /** `s.chars().rev().collect()`. */
  function Reversed(s: string): (r: string)
    ensures |r| == |s|
  {
    if s == [] then [] else Reversed(s[1..]) + [s[0]]
  }

  /** The text with its commas removed. */
  function WithoutCommas(s: string): string
  {
    if s == [] then [] else (if s[0] == ',' then [] else [s[0]]) + WithoutCommas(s[1..])
  }

  predicate NoCommas(s: string)
  {
    forall k :: 0 <= k < |s| ==> s[k] != ','
  }

  /** The formatter of the source: it pushes the digits least significant first, with
      a comma before every third digit after the first, and returns the reversal. */
  method FormatThousandSeparator(n0: nat) returns (r: string)
    ensures r == Sep(NatToString(n0))
  {
    if n0 == 0 {
      return "0";
    }
    ghost var ds := NatToString(n0);
    var n: nat := n0;
    var s := "";
    var i: nat := 0;
    while n > 0
      invariant i <= |ds|
      invariant n > 0 ==> ds == NatToString(n) + ds[|ds| - i..]
      invariant n == 0 ==> i == |ds|
      invariant Reversed(s) == Sep(ds[|ds| - i..])
    {
      DigitsStep(ds, n, i);
      PushStep(s, ds[|ds| - i..], DigitChar(n % 10), i);
      if i > 0 && i % 3 == 0 {
        s := s + [','];
      }
      s := s + [DigitChar(n % 10)];
      n := n / 10;
      i := i + 1;
    }
    assert ds[|ds| - i..] == ds;
    r := Reversed(s);
  }

  /** One turn of the loop on the digits: the digit it takes is the one in front of
      those already taken. */
  lemma DigitsStep(ds: string, n: nat, i: nat)
    requires n > 0 && i <= |ds| && ds == NatToString(n) + ds[|ds| - i..]
    ensures i < |ds| && ds[|ds| - (i + 1)..] == [DigitChar(n % 10)] + ds[|ds| - i..]
    ensures n / 10 > 0 ==> ds == NatToString(n / 10) + ds[|ds| - (i + 1)..]
    ensures n / 10 == 0 ==> i + 1 == |ds|
  {
    if n >= 10 {
      assert NatToString(n) == NatToString(n / 10) + [DigitChar(n % 10)];
    }
  }

  /** One turn of the loop on the text: the pushes keep the reversal equal to the
      grouping of the digits taken so far. */
  lemma PushStep(s: string, tail: string, c: char, i: nat)
    requires |tail| == i && Reversed(s) == Sep(tail)
    ensures Reversed((if i > 0 && i % 3 == 0 then s + [','] else s) + [c]) == Sep([c] + tail)
  {
    ReversedPush(s, ',');
    ReversedPush(if i > 0 && i % 3 == 0 then s + [','] else s, c);
    SepCons(c, tail);
  }

  lemma {:induction false} ReversedPush(s: string, c: char)
    ensures Reversed(s + [c]) == [c] + Reversed(s)
  {
    if s != [] {
      assert (s + [c])[1..] == s[1..] + [c];
      ReversedPush(s[1..], c);
    }
  }

  /** Putting one more digit in front of `t` opens a new group exactly when `t` is a
      nonempty whole number of groups. */
  lemma {:induction false} SepCons(c: char, t: string)
    ensures Sep([c] + t) == if |t| > 0 && |t| % 3 == 0 then [c] + "," + Sep(t) else [c] + Sep(t)
    decreases |t|
  {
    if |t| >= 3 {
      var x := [c] + t;
      var front := t[..|t| - 3];
      assert x[..|x| - 3] == [c] + front;
      assert x[|x| - 3..] == t[|t| - 3..];
      SepCons(c, front);
      if |t| == 3 {
        assert front == [];
      }
    }
  }

  lemma {:induction false} WithoutCommasAppend(a: string, b: string)
    ensures WithoutCommas(a + b) == WithoutCommas(a) + WithoutCommas(b)
  {
    if a == [] {
      assert a + b == b;
    } else {
      assert (a + b)[1..] == a[1..] + b;
      WithoutCommasAppend(a[1..], b);
    }
  }

  lemma {:induction false} WithoutCommasOfNone(s: string)
    requires NoCommas(s)
    ensures WithoutCommas(s) == s
  {
    if s != [] {
      WithoutCommasOfNone(s[1..]);
    }
  }

  /** Removing the commas gives the digits back. */
  lemma {:induction false} SepRoundTrip(ds: string)
    requires NoCommas(ds)
    ensures WithoutCommas(Sep(ds)) == ds
    decreases |ds|
  {
    if |ds| <= 3 {
      WithoutCommasOfNone(ds);
    } else {
      var front, back := ds[..|ds| - 3], ds[|ds| - 3..];
      SepRoundTrip(front);
      WithoutCommasAppend(Sep(front) + ",", back);
      WithoutCommasAppend(Sep(front), ",");
      WithoutCommasOfNone(back);
      assert ds == front + back;
    }
  }

  /** Grouping adds one comma per three digits after the first group, and a position
      holds a comma exactly when a whole number of "digit digit digit comma" blocks
      follows it, so there is none at either end. */
  lemma {:induction false} SepShape(ds: string)
    requires |ds| > 0 && NoCommas(ds)
    ensures |Sep(ds)| == |ds| + (|ds| - 1) / 3
    ensures forall k :: 0 <= k < |Sep(ds)| ==> (Sep(ds)[k] == ',' <==> (|Sep(ds)| - k) % 4 == 0)
    decreases |ds|
  {
    if |ds| > 3 {
      var front := ds[..|ds| - 3];
      SepShape(front);
      var r := Sep(ds);
      assert r == Sep(front) + "," + ds[|ds| - 3..];
      forall k | 0 <= k < |r|
        ensures r[k] == ',' <==> (|r| - k) % 4 == 0
      {
        if k < |Sep(front)| {
          assert r[k] == Sep(front)[k];
          assert |r| - k == (|Sep(front)| - k) + 4;
        }
      }
    }
  }

  /** The formatted text of any number: "0" for zero, its decimal digits once the commas
      are removed, `(digits - 1) / 3` commas, never one first or last. */
  lemma FormatProperties(n: nat)
    ensures Sep(NatToString(0)) == "0"
    ensures WithoutCommas(Sep(NatToString(n))) == NatToString(n)
    ensures var r, ds := Sep(NatToString(n)), NatToString(n);
      && |r| == |ds| + (|ds| - 1) / 3
      && r[0] != ',' && r[|r| - 1] != ','
      && forall k :: 0 <= k < |r| ==> (r[k] == ',' <==> (|r| - k) % 4 == 0)
  {
    var ds := NatToString(n);
    assert NoCommas(ds);
    SepRoundTrip(ds);
    SepShape(ds);
    NoCommaFirst(|ds|);
  }

  /** A grouped text never has a whole number of four-character blocks. */
  lemma NoCommaFirst(len: nat)
    requires len > 0
    ensures (len + (len - 1) / 3) % 4 != 0
  {
    var q, rest := (len - 1) / 3, (len - 1) % 3;
    assert len + q == 4 * q + rest + 1;
  }

  /** One million two hundred thousand and five, grouped. */
  lemma FormatExample()
    ensures Sep("1200005") == "1,200,005"
  {
  }
}
