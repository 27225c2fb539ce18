/** Elapsed-time arithmetic shared by the "time ago" labels: timestamps are
    integer milliseconds, and `Math.floor(ms / 3600000)` is the floor of the
    quotient for every sign of `ms`. */
module Elapsed {
  import opened Text

  const MsPerHour := 3600000

  /** Whole hours in `ms`, rounded toward minus infinity. */
  function WholeHours(ms: int): (r: int)
    ensures r * MsPerHour <= ms < (r + 1) * MsPerHour
  {
    ms / MsPerHour
  }

  /** The floor is the only integer with that property. */
  lemma WholeHoursUnique(ms: int, h: int)
    requires h * MsPerHour <= ms < (h + 1) * MsPerHour
    ensures WholeHours(ms) == h
  {
  }

  /** `${n} ${unit}${n > 1 ? 's' : ''} ago`: the digits, a space, the unit,
      an "s" exactly when the count is above one, then " ago". */
  function Ago(n: nat, unit: string): (r: string)
    ensures var d := NatToString(n);
      |d| + |unit| + 5 <= |r| && r[..|d|] == d && r[|d|] == ' '
      && r[|d| + 1..|d| + 1 + |unit|] == unit
      && (|r| == |d| + |unit| + 6 <==> n > 1)
      && (n > 1 ==> r[|r| - 5] == 's')
      && r[|r| - 4..] == " ago"
  {
    NatToString(n) + " " + unit + (if n > 1 then "s" else "") + " ago"
  }

  /** With a one-word unit, the label splits on spaces into the count, the
      unit (plural when the count is above one) and "ago". */
  lemma AgoWords(n: nat, unit: string)
    requires ' ' !in unit
    ensures Split(Ago(n, unit), ' ') == [NatToString(n), unit + (if n > 1 then "s" else ""), "ago"]
  {
    var d, u := NatToString(n), unit + (if n > 1 then "s" else "");
    var parts := [d, u, "ago"];
    assert ' ' !in d by {
      forall i | 0 <= i < |d| ensures d[i] != ' ' { assert IsDigit(d[i]); }
    }
    assert ' ' !in u;
    assert ' ' !in "ago";
    assert Join(parts[2..], " ") == "ago";
    assert Join(parts[1..], " ") == u + " " + "ago";
    assert Ago(n, unit) == Join(parts, " ");
    SplitJoin(parts, ' ');
  }

  /** The label's number is recoverable: different counts give different
      labels. */
  lemma AgoInjective(m: nat, n: nat, unit: string)
    requires Ago(m, unit) == Ago(n, unit)
    ensures m == n
  {
    var a, b := NatToString(m), NatToString(n);
    if |a| < |b| {
      ShorterNumberDiffers(m, n, unit);
    } else if |b| < |a| {
      ShorterNumberDiffers(n, m, unit);
    } else {
      assert a == Ago(m, unit)[..|a|] == Ago(n, unit)[..|b|] == b;
      NatToStringInjective(m, n);
    }
  }

  lemma ShorterNumberDiffers(m: nat, n: nat, unit: string)
    requires |NatToString(m)| < |NatToString(n)|
    ensures Ago(m, unit) != Ago(n, unit)
  {
    var a, b := NatToString(m), NatToString(n);
    assert Ago(m, unit)[|a|] == ' ';
    assert Ago(n, unit)[|a|] == b[|a|];
    assert IsDigit(b[|a|]);
  }
}
