/** Thousands grouping of `formatNumberWithCommas` (frontend/lib/format.ts).

    The source writes `num.toString()` and lets the regular expression
    `\B(?=(\d{3})+(?!\d))` insert a comma at every position that lies between
    two characters of the numeral and is followed by a positive multiple of
    three digits up to the end of the digit run. `RegexGrouping` states that
    rule position by position; `Group` builds the result three digits at a
    time from the right; `GroupMatchesRegex` proves the two agree. */
module Format {
  import opened Strings

  /** The regular expression's rule, scanning the numeral `t` left to right:
      after its first character a comma follows exactly when the number of
      characters still to come is a positive multiple of three. */
  function RegexGrouping(t: string): string
    decreases |t|
  {
    if |t| == 0 then ""
    else [t[0]] + (if |t| - 1 > 0 && (|t| - 1) % 3 == 0 then "," else "") + RegexGrouping(t[1..])
  }

  /** Groups a digit string: the last three digits after a comma, the rest
      grouped the same way. */
  function Group(ds: string): (r: string)
    decreases |ds|
  {
    if |ds| <= 3 then ds else Group(ds[..|ds| - 3]) + "," + ds[|ds| - 3..]
  }

  /** `formatNumberWithCommas(n)` for a whole number `n`. The minus sign of a
      negative number is not a word character, so no comma follows it. */
  function FormatNumberWithCommas(n: int): (r: string)
    ensures n < 0 <==> |r| > 0 && r[0] == '-'
  {
    var ds := NatToString(if n < 0 then -n else n);
    GroupLead(ds);
    assert Group(ds)[0] == ds[0];
    if n < 0 then "-" + Group(ds) else Group(ds)
  }

  function RemoveCommas(s: string): string
    decreases |s|
  {
    if |s| == 0 then "" else (if s[0] == ',' then "" else [s[0]]) + RemoveCommas(s[1..])
  }

  function CountCommas(s: string): nat
    decreases |s|
  {
    if |s| == 0 then 0 else (if s[0] == ',' then 1 else 0) + CountCommas(s[1..])
  }

  lemma {:induction false} RemoveCommasAppend(a: string, b: string)
    ensures RemoveCommas(a + b) == RemoveCommas(a) + RemoveCommas(b)
    ensures CountCommas(a + b) == CountCommas(a) + CountCommas(b)
    decreases |a|
  {
    if |a| > 0 {
      assert (a + b)[0] == a[0];
      assert (a + b)[1..] == a[1..] + b;
      RemoveCommasAppend(a[1..], b);
    } else {
      assert a + b == b;
    }
  }

  lemma {:induction false} RemoveCommasDigits(ds: string)
    requires AllDigits(ds)
    ensures RemoveCommas(ds) == ds && CountCommas(ds) == 0
    decreases |ds|
  {
    if |ds| > 0 {
      RemoveCommasDigits(ds[1..]);
      assert ds == [ds[0]] + ds[1..];
    }
  }

  /** The rule applied to `a + b`, where `b` has a positive multiple of
      three characters, puts a comma between the two parts. */
  lemma {:induction false} RegexGroupingAppend(a: string, b: string)
    requires |a| >= 1 && |b| > 0 && |b| % 3 == 0
    ensures RegexGrouping(a + b) == RegexGrouping(a) + "," + RegexGrouping(b)
    decreases |a|
  {
    var n := |a| + |b|;
    assert (a + b)[0] == a[0];
    assert (a + b)[1..] == a[1..] + b;
    if |a| == 1 {
      assert a[1..] + b == b;
      assert (n - 1) % 3 == 0;
      assert RegexGrouping(a) == [a[0]];
    } else {
      RegexGroupingAppend(a[1..], b);
      assert (n - 1) % 3 == (|a| - 1) % 3 by {
        ModShift(|a| - 1, |b|);
      }
      Regroup([a[0]] + (if (|a| - 1) % 3 == 0 then "," else ""), RegexGrouping(a[1..]), ",", RegexGrouping(b));
    }
  }

  lemma Regroup(a: string, x: string, y: string, z: string)
    ensures a + (x + y + z) == (a + x) + y + z
  {
  }

  lemma ModShift(a: int, d: int)
    requires d % 3 == 0
    ensures (a + d) % 3 == a % 3
  {
    var q := d / 3;
    assert d == 3 * q;
  }

  /** Three or fewer characters receive no comma. */
  lemma {:induction false} RegexGroupingShort(t: string)
    requires |t| <= 3
    ensures RegexGrouping(t) == t
    decreases |t|
  {
    if |t| > 0 {
      RegexGroupingShort(t[1..]);
      assert [t[0]] + t[1..] == t;
    }
  }

  /** The three-at-a-time construction is exactly what the regular expression
      produces. */
  lemma {:induction false} GroupMatchesRegex(ds: string)
    ensures Group(ds) == RegexGrouping(ds)
    decreases |ds|
  {
    if |ds| <= 3 {
      RegexGroupingShort(ds);
    } else {
      var m := |ds| - 3;
      var pre, post := ds[..m], ds[m..];
      assert Group(ds) == Group(pre) + "," + post;
      GroupMatchesRegex(pre);
      assert pre + post == ds;
      RegexGroupingAppend(pre, post);
      RegexGroupingShort(post);
    }
  }

  /** Deleting the commas of `g + "," + post`, for a digit string `post`. */
  lemma CommaJoin(g: string, post: string)
    requires AllDigits(post)
    ensures RemoveCommas(g + "," + post) == RemoveCommas(g) + post
    ensures CountCommas(g + "," + post) == CountCommas(g) + 1
  {
    RemoveCommasDigits(post);
    RemoveCommasAppend(g + ",", post);
    RemoveCommasAppend(g, ",");
    assert RemoveCommas(",") == "" && CountCommas(",") == 1;
  }

  /** The last three digits split off. */
  lemma GroupStep(ds: string)
    requires AllDigits(ds) && |ds| > 3
    ensures AllDigits(ds[..|ds| - 3]) && AllDigits(ds[|ds| - 3..])
    ensures Group(ds) == Group(ds[..|ds| - 3]) + "," + ds[|ds| - 3..]
    ensures ds[..|ds| - 3] + ds[|ds| - 3..] == ds
  {
    DigitsTake(ds, |ds| - 3);
    DigitsDrop(ds, |ds| - 3);
    TakeDrop(ds, |ds| - 3);
  }

  lemma DigitsTake(ds: string, k: nat)
    requires AllDigits(ds) && k <= |ds|
    ensures AllDigits(ds[..k])
  {
    forall i | 0 <= i < k ensures IsDigit(ds[..k][i]) {
      assert ds[..k][i] == ds[i];
    }
  }

  lemma DigitsDrop(ds: string, k: nat)
    requires AllDigits(ds) && k <= |ds|
    ensures AllDigits(ds[k..])
  {
    forall i | 0 <= i < |ds| - k ensures IsDigit(ds[k..][i]) {
      assert ds[k..][i] == ds[k + i];
    }
  }

  lemma TakeDrop(ds: string, k: nat)
    requires k <= |ds|
    ensures ds[..k] + ds[k..] == ds
  {
  }

  /** Deleting the commas gives back the numeral, and there are
      floor((digits - 1) / 3) of them. */
  lemma {:induction false} GroupDigitsAndCommas(ds: string)
    requires AllDigits(ds) && |ds| >= 1
    ensures RemoveCommas(Group(ds)) == ds
    ensures CountCommas(Group(ds)) == (|ds| - 1) / 3
    decreases |ds|
  {
    if |ds| <= 3 {
      RemoveCommasDigits(ds);
    } else {
      var m := |ds| - 3;
      var pre, post := ds[..m], ds[m..];
      GroupStep(ds);
      GroupDigitsAndCommas(pre);
      CommaJoin(Group(pre), post);
      assert (|ds| - 1) / 3 == (m - 1) / 3 + 1;
    }
  }

  /** A prefix of `a` is a prefix of `a + b`. */
  lemma StartsWithAppend(a: string, b: string, p: string)
    requires StartsWith(a, p)
    ensures StartsWith(a + b, p)
  {
    assert (a + b)[..|p|] == a[..|p|];
  }

  /** The grouped text neither starts nor ends with a comma. */
  lemma {:induction false} GroupEnds(ds: string)
    requires AllDigits(ds) && |ds| >= 1
    ensures |Group(ds)| >= 1
    ensures Group(ds)[0] != ',' && Group(ds)[|Group(ds)| - 1] != ','
    decreases |ds|
  {
    if |ds| > 3 {
      var m := |ds| - 3;
      GroupStep(ds);
      GroupEnds(ds[..m]);
      var g, post := Group(ds[..m]), ds[m..];
      var r := g + ("," + post);
      assert Group(ds) == r;
      assert r[0] == g[0];
      assert r[|r| - 1] == post[2];
      assert IsDigit(post[2]);
    }
  }

  /** The first group is the leading 1 to 3 digits (3 when the digit count
      is a multiple of three). */
  lemma {:induction false} GroupLead(ds: string)
    requires AllDigits(ds) && |ds| >= 1
    ensures StartsWith(Group(ds), ds[..if |ds| % 3 == 0 then 3 else |ds| % 3])
    decreases |ds|
  {
    if |ds| > 3 {
      var m := |ds| - 3;
      var k := if |ds| % 3 == 0 then 3 else |ds| % 3;
      GroupStep(ds);
      GroupLead(ds[..m]);
      var g, post := Group(ds[..m]), ds[m..];
      assert k == (if m % 3 == 0 then 3 else m % 3) by {
        ModShift(m, 3);
      }
      assert StartsWith(g, ds[..k]) by {
        assert ds[..m][..k] == ds[..k];
      }
      StartsWithAppend(g, "," + post, ds[..k]);
      assert Group(ds) == g + ("," + post);
    } else {
      assert ds[..if |ds| % 3 == 0 then 3 else |ds| % 3] == ds;
    }
  }

  /** The grouped text has no leading or trailing comma, and its first group
      is the leading 1 to 3 digits (3 when the digit count is a multiple of
      three). */
  lemma GroupShape(ds: string)
    requires AllDigits(ds) && |ds| >= 1
    ensures |Group(ds)| >= 1
    ensures Group(ds)[0] != ',' && Group(ds)[|Group(ds)| - 1] != ','
    ensures StartsWith(Group(ds), ds[..if |ds| % 3 == 0 then 3 else |ds| % 3])
  {
    GroupEnds(ds);
    GroupLead(ds);
  }

  /** Every group after the first is exactly three digits: the text after
      any comma is three digits followed by either the end or another
      comma. */
  lemma {:induction false} GroupsOfThree(ds: string, c: nat)
    requires AllDigits(ds) && |ds| >= 1
    requires c < |Group(ds)| && Group(ds)[c] == ','
    ensures c + 3 < |Group(ds)|
    ensures AllDigits(Group(ds)[c + 1..c + 4])
    ensures c + 4 == |Group(ds)| || Group(ds)[c + 4] == ','
    decreases |ds|
  {
    var m := |ds| - 3;
    if |ds| <= 3 {
      assert false;
    }
    var g := Group(ds[..m]);
    assert Group(ds) == g + "," + ds[m..];
    if c < |g| {
      assert g[c] == ',';
      GroupsOfThree(ds[..m], c);
      if c + 4 < |g| {
        assert Group(ds)[c + 4] == g[c + 4];
      } else {
        assert c + 4 == |g|;
      }
      assert Group(ds)[c + 1..c + 4] == g[c + 1..c + 4];
    } else {
      assert c == |g|;
      assert Group(ds)[c + 1..c + 4] == ds[m..];
    }
  }

  /** Numbers below 1000 come back unchanged. */
  lemma SmallNumbersUnchanged(n: nat)
    requires n < 1000
    ensures FormatNumberWithCommas(n) == NatToString(n)
  {
    NatToStringLength(n);
  }

  /** For a whole number `n >= 0`, deleting the commas from the result gives
      `n.toString()`, and the number of commas is floor((digits - 1) / 3). */
  lemma CommasRoundTrip(n: nat)
    ensures RemoveCommas(FormatNumberWithCommas(n)) == NatToString(n)
    ensures CountCommas(FormatNumberWithCommas(n)) == (|NatToString(n)| - 1) / 3
  {
    GroupDigitsAndCommas(NatToString(n));
  }

  /** The result is what the source's regular expression produces from the
      numeral. */
  lemma FormatIsRegexGrouping(n: nat)
    ensures FormatNumberWithCommas(n) == RegexGrouping(NatToString(n))
  {
    GroupMatchesRegex(NatToString(n));
  }
}
