/** `formatTime` and `groupByRelativeDate` of utils/formatting.ts. The
    relative-date key (`getRelativeDate`, which reads the clock and the
    locale) is a parameter of the grouping. */
module Formatting {
  import opened Common

  // ---------------------------------------------------------------------
  // Decimal digits

  predicate IsDigits(s: string)
  {
    forall i :: 0 <= i < |s| ==> '0' <= s[i] <= '9'
  }

  function DigitChar(d: nat): (c: char)
    requires d < 10
    ensures '0' <= c <= '9'
  {
    (('0' as int) + d) as char
  }

  /** `String(n)` for a natural number: its decimal digits, no leading zero. */
  function DecimalString(n: nat): (s: string)
    ensures IsDigits(s) && |s| >= 1
    ensures n < 10 ==> |s| == 1
    ensures 10 <= n < 100 ==> |s| == 2
    ensures n >= 10 ==> |s| >= 2
    ensures n >= 1 ==> s[0] != '0'
  {
    if n < 10 then [DigitChar(n)] else DecimalString(n / 10) + [DigitChar(n % 10)]
  }

  /** The number a string of decimal digits denotes. */
  function DigitsValue(s: string): nat
    requires IsDigits(s)
  {
    if s == [] then 0 else DigitsValue(s[..|s| - 1]) * 10 + (s[|s| - 1] as int - '0' as int)
  }

  lemma {:induction false} DecimalStringRoundTrip(n: nat)
    ensures DigitsValue(DecimalString(n)) == n
  {
    var s := DecimalString(n);
    if n >= 10 {
      DecimalStringRoundTrip(n / 10);
      assert s[..|s| - 1] == DecimalString(n / 10);
    } else {
      assert s[..0] == [];
    }
  }

  lemma {:induction false} LeadingZero(s: string)
    requires IsDigits(s)
    ensures IsDigits("0" + s) && DigitsValue("0" + s) == DigitsValue(s)
  {
    if s == [] {
      assert ("0" + s)[..0] == [];
    } else {
      var init := s[..|s| - 1];
      assert ("0" + s)[..|"0" + s| - 1] == "0" + init;
      LeadingZero(init);
    }
  }

  /** `String(num).padStart(2, '0')`: the digits of `num`, left-padded with
      '0' to at least two characters; it still denotes `num`. */
  function Pad(n: nat): (s: string)
    ensures IsDigits(s) && |s| >= 2
    ensures n < 100 ==> |s| == 2
    ensures DigitsValue(s) == n && Field(s) == Some(n)
    ensures |s| == 2 || s[0] != '0'
  {
    var d := DecimalString(n);
    DecimalStringRoundTrip(n);
    if |d| < 2 then
      LeadingZero(d);
      "0" + d
    else d
  }

  // ---------------------------------------------------------------------
  // formatTime

  /** `formatTime(seconds)` for a whole, non-negative number of seconds:
      `MM:SS` under an hour, `HH:MM:SS` (hours padded to at least two
      digits) from an hour on. The last field holds the seconds within the
      minute, the one before it the minutes within the hour, and the long
      form's first field the whole hours. */
  function FormatTime(seconds: nat): (r: string)
    ensures |r| >= 5 && r[|r| - 3] == ':'
    ensures seconds < 3600 <==> |r| == 5
    ensures seconds >= 3600 ==> |r| >= 8 && r[|r| - 6] == ':'
    ensures Field(r[|r| - 2..]) == Some(seconds % 60)
    ensures Field(r[|r| - 5..|r| - 3]) == Some((seconds % 3600) / 60)
    ensures seconds >= 3600 ==> Field(r[..|r| - 6]) == Some(seconds / 3600)
  {
    var hours := seconds / 3600;
    var minutes := (seconds % 3600) / 60;
    var secs := seconds % 60;
    var hh, mm, ss := Pad(hours), Pad(minutes), Pad(secs);
    if hours > 0 then
      var r := hh + ":" + mm + ":" + ss;
      assert r[|r| - 2..] == ss && r[|r| - 5..|r| - 3] == mm && r[..|r| - 6] == hh;
      r
    else
      var r := mm + ":" + ss;
      assert r[|r| - 2..] == ss && r[|r| - 5..|r| - 3] == mm;
      r
  }

  /** One clock field read back: the value of its digits, if it is digits. */
  function Field(s: string): (r: Option<nat>)
    ensures r.Some? <==> IsDigits(s)
  {
    if IsDigits(s) then Some(DigitsValue(s)) else None
  }

  /** Reads a canonical `MM:SS` or `H..H:MM:SS` back into seconds: the
      inverse of `FormatTime`. Minutes and seconds must be below 60, and the
      hours of the long form positive and without a leading zero beyond the
      padding to two digits. */
  function ParseTime(s: string): Option<nat>
  {
    if |s| < 5 || s[|s| - 3] != ':' then None
    else
      var mm := Field(s[|s| - 5..|s| - 3]);
      var ss := Field(s[|s| - 2..]);
      if mm.None? || ss.None? || mm.value >= 60 || ss.value >= 60 then None
      else
        var tail := mm.value * 60 + ss.value;
        if |s| == 5 then Some(tail)
        else if |s| >= 8 && s[|s| - 6] == ':' then
          var hh := s[..|s| - 6];
          var h := Field(hh);
          if h.Some? && h.value > 0 && (|hh| == 2 || hh[0] != '0') then Some(h.value * 3600 + tail)
          else None
        else None
  }

  lemma MulAtLeast(k: int, d: int)
    requires k >= 1 && d >= 0
    ensures k * d >= d
  {
    assert k * d == d + (k - 1) * d;
  }

  /** Division by a positive divisor has one quotient and one remainder. */
  lemma DivModSplit(x: nat, d: nat, q: nat, r: nat)
    requires 0 < d && r < d && x == q * d + r
    ensures x / d == q && x % d == r
  {
    var q0, r0 := x / d, x % d;
    assert x == q0 * d + r0 && 0 <= r0 < d;
    if q0 > q {
      MulAtLeast(q0 - q, d);
      assert false;
    } else if q0 < q {
      MulAtLeast(q - q0, d);
      assert false;
    }
  }

  /** Hours, minutes and seconds recombine into the input. */
  lemma TimeSplit(s: nat)
    ensures (s / 3600) * 3600 + ((s % 3600) / 60) * 60 + s % 60 == s
  {
    var h, rest := s / 3600, s % 3600;
    var m, sec := rest / 60, rest % 60;
    assert s == h * 3600 + rest;
    assert rest == m * 60 + sec;
    assert s == (h * 60 + m) * 60 + sec;
    DivModSplit(s, 60, h * 60 + m, sec);
  }

  /** A clock reads back from its fields. */
  lemma ParseShort(mm: string, ss: string, m: nat, sec: nat)
    requires |mm| == 2 && |ss| == 2 && m < 60 && sec < 60
    requires Field(mm) == Some(m) && Field(ss) == Some(sec)
    ensures ParseTime(mm + ":" + ss) == Some(m * 60 + sec)
  {
    var r := mm + ":" + ss;
    assert r[|r| - 5..|r| - 3] == mm;
    assert r[|r| - 2..] == ss;
  }

  lemma ParseFields(r: string, h: nat, m: nat, sec: nat)
    requires |r| >= 8 && r[|r| - 3] == ':' && r[|r| - 6] == ':'
    requires Field(r[|r| - 5..|r| - 3]) == Some(m) && Field(r[|r| - 2..]) == Some(sec)
    requires Field(r[..|r| - 6]) == Some(h)
    requires m < 60 && sec < 60 && h > 0 && (|r| == 8 || r[0] != '0')
    ensures ParseTime(r) == Some(h * 3600 + m * 60 + sec)
  {
  }

  lemma ParseLong(hh: string, mm: string, ss: string, h: nat, m: nat, sec: nat)
    requires |hh| >= 2 && |mm| == 2 && |ss| == 2
    requires Field(hh) == Some(h) && Field(mm) == Some(m) && Field(ss) == Some(sec)
    requires m < 60 && sec < 60 && h > 0 && (|hh| == 2 || hh[0] != '0')
    ensures ParseTime(hh + ":" + mm + ":" + ss) == Some(h * 3600 + m * 60 + sec)
  {
    var r := hh + ":" + mm + ":" + ss;
    assert r[|r| - 5..|r| - 3] == mm;
    assert r[|r| - 2..] == ss;
    assert r[..|r| - 6] == hh;
    ParseFields(r, h, m, sec);
  }

  /** The digits of every component read back to the component, so parsing
      the formatted time gives the seconds back. */
  lemma FormatTimeRoundTrip(seconds: nat)
    ensures ParseTime(FormatTime(seconds)) == Some(seconds)
  {
    var hours := seconds / 3600;
    var minutes := (seconds % 3600) / 60;
    var secs := seconds % 60;
    TimeSplit(seconds);
    assert hours * 3600 + minutes * 60 + secs == seconds;
    var hh, mm, ss := Pad(hours), Pad(minutes), Pad(secs);
    assert minutes < 60 && secs < 60;
    if hours > 0 {
      assert FormatTime(seconds) == hh + ":" + mm + ":" + ss;
      ParseLong(hh, mm, ss, hours, minutes, secs);
      assert ParseTime(FormatTime(seconds)) == Some(hours * 3600 + minutes * 60 + secs);
    } else {
      assert FormatTime(seconds) == mm + ":" + ss;
      ParseShort(mm, ss, minutes, secs);
      assert minutes * 60 + secs == seconds;
      assert ParseTime(FormatTime(seconds)) == Some(minutes * 60 + secs);
    }
  }

  /** The example given with `formatTime`. */
  lemma FormatTimeExample()
    ensures FormatTime(3665) == "01:01:05"
  {
    assert 3665 / 3600 == 1 && (3665 % 3600) / 60 == 1 && 3665 % 60 == 5;
    assert DecimalString(1) == "1" && DecimalString(5) == "5";
    assert Pad(1) == "01" && Pad(5) == "05";
  }

  // ---------------------------------------------------------------------
  // groupByRelativeDate

  /** The items whose key is `k`, in input order. */
  function WithKey<T>(items: seq<T>, key: T -> string, k: string): (r: seq<T>)
    ensures |r| <= |items|
    ensures forall j :: 0 <= j < |r| ==> key(r[j]) == k
  {
    if items == [] then []
    else
      var rest := WithKey(items[..|items| - 1], key, k);
      if key(items[|items| - 1]) == k then rest + [items[|items| - 1]] else rest
  }

  /** The reduce of `groupByRelativeDate`: create the group on first use,
      then push the item onto it. */
  function Grouped<T>(items: seq<T>, key: T -> string): (r: map<string, seq<T>>)
    ensures r.Keys == Keys(items, key)
    ensures forall k :: k in r ==> r[k] != []
  {
    if items == [] then map[]
    else
      KeysSnoc(items, key);
      var acc := Grouped(items[..|items| - 1], key);
      var x := items[|items| - 1];
      var k := key(x);
      acc[k := (if k in acc then acc[k] else []) + [x]]
  }

  function Keys<T>(items: seq<T>, key: T -> string): set<string>
  {
    set i | 0 <= i < |items| :: key(items[i])
  }

  /** The keys of a list are those of all but its last item, and the last
      item's. */
  lemma KeysSnoc<T>(items: seq<T>, key: T -> string)
    requires items != []
    ensures Keys(items, key) == Keys(items[..|items| - 1], key) + {key(items[|items| - 1])}
  {
    var init := items[..|items| - 1];
    forall k | k in Keys(items, key) ensures k in Keys(init, key) + {key(items[|items| - 1])} {
      var i :| 0 <= i < |items| && key(items[i]) == k;
      if i < |items| - 1 { assert init[i] == items[i]; }
    }
    forall k | k in Keys(init, key) ensures k in Keys(items, key) {
      var i :| 0 <= i < |init| && key(init[i]) == k;
      assert items[i] == init[i];
    }
  }

  /** Every group is the order-preserving selection of the items with its
      key, and the groups are exactly the keys that occur. */
  lemma {:induction false} GroupedIsSelection<T>(items: seq<T>, key: T -> string)
    ensures Grouped(items, key).Keys == Keys(items, key)
    ensures forall k :: k in Grouped(items, key) ==> Grouped(items, key)[k] == WithKey(items, key, k)
  {
    if items != [] {
      var init := items[..|items| - 1];
      var x := items[|items| - 1];
      GroupedIsSelection(init, key);
      if key(x) !in Grouped(init, key) {
        WithKeyAbsent(init, key, key(x));
      }
    }
  }

  lemma {:induction false} WithKeyAbsent<T>(items: seq<T>, key: T -> string, k: string)
    requires k !in Keys(items, key)
    ensures WithKey(items, key, k) == []
  {
    if items != [] {
      var init := items[..|items| - 1];
      assert Keys(init, key) <= Keys(items, key) by {
        forall j | j in Keys(init, key) ensures j in Keys(items, key) {
          var i :| 0 <= i < |init| && key(init[i]) == j;
          assert items[i] == init[i];
        }
      }
      assert key(items[|items| - 1]) in Keys(items, key);
      WithKeyAbsent(init, key, k);
    }
  }

  /** The order in which the reduce creates the groups: a key joins when its
      first item is met. For keys like those of `getRelativeDate` ("Hoje",
      "Ontem", dd/mm/yyyy), which are neither array indices nor names
      inherited from `Object.prototype`, this is the order `Object.keys`
      lists them in. */
  function KeyOrder<T>(items: seq<T>, key: T -> string): seq<string>
  {
    if items == [] then []
    else
      var order := KeyOrder(items[..|items| - 1], key);
      var k := key(items[|items| - 1]);
      if k in order then order else order + [k]
  }

  /** The index of the first item with key `k`, or the length when there is
      none. */
  function FirstIndex<T>(items: seq<T>, key: T -> string, k: string): (n: nat)
    ensures n <= |items|
    ensures n < |items| ==> key(items[n]) == k
    ensures forall p :: 0 <= p < n ==> key(items[p]) != k
  {
    if items == [] then 0
    else if key(items[0]) == k then 0
    else 1 + FirstIndex(items[1..], key, k)
  }

  /** Appending an item does not move the first index of a key already
      present, and a new key is first met at the appended item. */
  lemma FirstIndexSnoc<T>(items: seq<T>, key: T -> string, k: string)
    requires items != []
    ensures var init := items[..|items| - 1];
      k in Keys(init, key) ==> FirstIndex(items, key, k) == FirstIndex(init, key, k) < |init|
    ensures var init := items[..|items| - 1];
      k !in Keys(init, key) && k == key(items[|items| - 1]) ==> FirstIndex(items, key, k) == |init|
  {
    var init := items[..|items| - 1];
    var n := FirstIndex(items, key, k);
    if k in Keys(init, key) {
      var i :| 0 <= i < |init| && key(init[i]) == k;
      var m := FirstIndex(init, key, k);
      assert items[i] == init[i];
      assert m <= i;
      assert items[m] == init[m];
      assert n <= m;
      assert items[n] == init[n];
    }
  }

  /** The group keys in creation order: each key once, exactly the keys
      present, listed by the position of their first item. */
  lemma {:induction false} KeyOrderIsFirstAppearance<T>(items: seq<T>, key: T -> string)
    ensures forall k :: k in KeyOrder(items, key) <==> k in Keys(items, key)
    ensures forall i, j :: 0 <= i < j < |KeyOrder(items, key)| ==> KeyOrder(items, key)[i] != KeyOrder(items, key)[j]
    ensures forall i, j :: 0 <= i < j < |KeyOrder(items, key)| ==>
      FirstIndex(items, key, KeyOrder(items, key)[i]) < FirstIndex(items, key, KeyOrder(items, key)[j])
  {
    if items != [] {
      var init := items[..|items| - 1];
      var order := KeyOrder(init, key);
      var x := items[|items| - 1];
      KeyOrderIsFirstAppearance(init, key);
      KeysSnoc(items, key);
      forall c | c in order ensures FirstIndex(items, key, c) == FirstIndex(init, key, c) < |init| {
        FirstIndexSnoc(items, key, c);
      }
      if key(x) !in order {
        assert key(x) !in Keys(init, key);
        FirstIndexSnoc(items, key, key(x));
        assert FirstIndex(items, key, key(x)) == |init|;
        var r := order + [key(x)];
        forall i, j | 0 <= i < j < |r|
          ensures FirstIndex(items, key, r[i]) < FirstIndex(items, key, r[j])
        {
          assert r[i] == order[i] && r[i] in order;
          assert FirstIndex(items, key, r[i]) < |init|;
          if j < |order| {
            assert r[j] == order[j] && r[j] in order;
            assert FirstIndex(init, key, order[i]) < FirstIndex(init, key, order[j]);
          } else {
            assert r[j] == key(x);
          }
        }
      } else {
        forall i, j | 0 <= i < j < |order|
          ensures FirstIndex(items, key, order[i]) < FirstIndex(items, key, order[j])
        {
          assert order[i] in order && order[j] in order;
        }
      }
    }
  }

  /** An arbitrary key of a non-empty map, always the same one. */
  ghost function SomeKey<T>(m: map<string, seq<T>>): string
    requires m != map[]
    ensures SomeKey(m) in m
  {
    var k :| k in m; k
  }

  /** The sum of the group sizes. */
  ghost function TotalSize<T>(m: map<string, seq<T>>): nat
    decreases m.Keys
  {
    if m == map[] then 0
    else
      var k := SomeKey(m);
      |m[k]| + TotalSize(m - {k})
  }

  lemma {:induction false} TotalSizeWithout<T>(m: map<string, seq<T>>, k: string)
    requires k in m
    ensures TotalSize(m) == |m[k]| + TotalSize(m - {k})
    decreases m.Keys
  {
    var j := SomeKey(m);
    if j != k {
      TotalSizeWithout(m - {j}, k);
      TotalSizeWithout(m - {k}, j);
      assert m - {j} - {k} == m - {k} - {j};
    }
  }

  lemma TotalSizeUpdate<T>(m: map<string, seq<T>>, k: string, v: seq<T>)
    ensures TotalSize(m[k := v]) == TotalSize(m) + |v| - (if k in m then |m[k]| else 0)
  {
    TotalSizeWithout(m[k := v], k);
    if k in m {
      TotalSizeWithout(m, k);
      assert m[k := v] - {k} == m - {k};
    } else {
      assert m[k := v] - {k} == m;
    }
  }

  /** The group sizes add up to the number of items. */
  lemma {:induction false} GroupSizesAddUp<T>(items: seq<T>, key: T -> string)
    ensures TotalSize(Grouped(items, key)) == |items|
  {
    if items != [] {
      var init := items[..|items| - 1];
      var acc := Grouped(init, key);
      var x := items[|items| - 1];
      GroupSizesAddUp(init, key);
      TotalSizeUpdate(acc, key(x), (if key(x) in acc then acc[key(x)] else []) + [x]);
    }
  }

  /** `groupByRelativeDate(items)` with the key function as a parameter: the
      dictionary of groups is built in place, one push per item, and `order`
      lists its keys in creation order, which is what `Object.keys` returns
      for date-label keys (see `KeyOrder`). */
  method GroupByRelativeDate<T>(items: seq<T>, key: T -> string) returns (groups: map<string, seq<T>>, order: seq<string>)
    ensures groups == Grouped(items, key) && order == KeyOrder(items, key)
    ensures groups.Keys == Keys(items, key)
    ensures forall k :: k in groups ==> groups[k] == WithKey(items, key, k)
    ensures TotalSize(groups) == |items|
    ensures forall k :: k in order <==> k in groups
    ensures forall i, j :: 0 <= i < j < |order| ==> order[i] != order[j]
    ensures forall i, j :: 0 <= i < j < |order| ==> FirstIndex(items, key, order[i]) < FirstIndex(items, key, order[j])
  {
    groups := map[];
    order := [];
    var i := 0;
    while i < |items|
      invariant 0 <= i <= |items|
      invariant groups == Grouped(items[..i], key)
      invariant order == KeyOrder(items[..i], key)
    {
      var x := items[i];
      var k := key(x);
      assert items[..i + 1][..i] == items[..i];
      KeyOrderIsFirstAppearance(items[..i], key);
      if k !in groups {
        groups := groups[k := []];
        order := order + [k];
      }
      groups := groups[k := groups[k] + [x]];
      i := i + 1;
    }
    assert items[..i] == items;
    GroupedIsSelection(items, key);
    GroupSizesAddUp(items, key);
    KeyOrderIsFirstAppearance(items, key);
  }
}
