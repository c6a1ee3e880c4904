/**
 * The performance history: one bar per day for the last fourteen days, each
 * estimated as 150 XP per key of the day's `checkedItems` and capped at the
 * configured maximum.
 */
module Stats {
  import opened Wrappers
  import opened Objects
  import opened JsonFormat

  const XpPerKey: nat := 150

  /**
   * `Object.keys(v).length` for a looked-up property: `None` where JavaScript
   * throws (undefined or null); strings and arrays have one key per index,
   * other primitives none, objects one per distinct member name.
   */
  function KeyCount(v: Option<Json>): (r: Option<nat>)
    ensures r.None? <==> v.None? || v.value.JNull?
    ensures v.Some? && v.value.JObj? ==> r == Some(|KeySet(v.value.members)|)
  {
    match v
    case None => None
    case Some(JNull) => None
    case Some(JObj(ms)) => Some(|KeySet(ms)|)
    case Some(JArr(xs)) => Some(|xs|)
    case Some(JStr(s)) => Some(|s|)
    case Some(_) => Some(0)
  }

  /** `v.name`: a member of an object (the last one of that name, as parsing keeps it); undefined otherwise. */
  function Property(v: Json, name: string): (r: Option<Json>)
    ensures !v.JObj? ==> r.None?
  {
    match v
    case JObj(ms) => GetLast(ms, name)
    case _ => None
  }

  /**
   * The estimate for the day stored under `key`: 0 when there is no record or a
   * falsy one, otherwise 150 per key of its `checkedItems`; `None` when that
   * lookup throws.
   */
  function DayXP(history: map<string, Json>, key: string): (r: Option<int>)
    ensures key !in history || !Truthy(history[key]) ==> r == Some(0)
    ensures r.Some? ==> r.value >= 0 && r.value % XpPerKey == 0
    ensures r.None? <==> key in history && Truthy(history[key]) && KeyCount(Property(history[key], "checkedItems")).None?
  {
    if key in history && Truthy(history[key]) then
      var n := KeyCount(Property(history[key], "checkedItems"));
      if n.None? then None else Some(n.value * XpPerKey)
    else Some(0)
  }

  /** `key.slice(5)`: the "MM-DD" part of an ISO date. */
  function DateLabel(key: string): (r: string)
    ensures |key| >= 5 ==> key == key[..5] + r
    ensures |key| < 5 ==> r == ""
  {
    if |key| >= 5 then key[5..] else ""
  }

  /** `xp > maxXP ? maxXP : xp`. */
  function Clamp(xp: int, maxXP: int): (r: int)
    ensures r <= maxXP && r <= xp
    ensures r == xp || r == maxXP
  {
    if xp > maxXP then maxXP else xp
  }

  datatype Bar = Bar(date: string, xp: int)

  /** The bars for the days `keys`, oldest first; `None` when any day's lookup throws. */
  function Bars(history: map<string, Json>, keys: seq<string>, maxXP: int): (r: Option<seq<Bar>>)
    ensures r.Some? ==> |r.value| == |keys|
  {
    if keys == [] then Some([])
    else
      var last := keys[|keys| - 1];
      match Bars(history, keys[..|keys| - 1], maxXP)
      case None => None
      case Some(prev) =>
        match DayXP(history, last)
        case None => None
        case Some(xp) => Some(prev + [Bar(DateLabel(last), Clamp(xp, maxXP))])
  }

  /**
   * Each bar is the day's label and its capped estimate, and no bars are drawn
   * exactly when some day's record makes the lookup throw.
   */
  lemma {:induction false} BarsSpec(history: map<string, Json>, keys: seq<string>, maxXP: int)
    ensures Bars(history, keys, maxXP).None? <==> exists j :: 0 <= j < |keys| && DayXP(history, keys[j]).None?
    ensures Bars(history, keys, maxXP).Some? ==>
      forall j :: 0 <= j < |keys| ==>
        Bars(history, keys, maxXP).value[j] == Bar(DateLabel(keys[j]), Clamp(DayXP(history, keys[j]).value, maxXP))
  {
    if keys != [] {
      var init := keys[..|keys| - 1];
      BarsSpec(history, init, maxXP);
      assert forall j :: 0 <= j < |init| ==> init[j] == keys[j];
      if Bars(history, keys, maxXP).None? && Bars(history, init, maxXP).None? {
        var j :| 0 <= j < |init| && DayXP(history, init[j]).None?;
        assert DayXP(history, keys[j]).None?;
      }
    }
  }

  /** No bar rises above the maximum; a day without a record shows 0 under a non-negative maximum. */
  lemma BarsBounded(history: map<string, Json>, keys: seq<string>, maxXP: int)
    requires Bars(history, keys, maxXP).Some?
    ensures forall j :: 0 <= j < |keys| ==> Bars(history, keys, maxXP).value[j].xp <= maxXP
    ensures maxXP >= 0 ==> forall j :: 0 <= j < |keys| && keys[j] !in history ==> Bars(history, keys, maxXP).value[j].xp == 0
  {
    BarsSpec(history, keys, maxXP);
  }

  /** Once a prefix of the days throws, the whole history view does. */
  lemma {:induction false} BarsNoneExtends(history: map<string, Json>, keys: seq<string>, m: nat, maxXP: int)
    requires m <= |keys| && Bars(history, keys[..m], maxXP).None?
    ensures Bars(history, keys, maxXP).None?
    decreases |keys| - m
  {
    if m < |keys| {
      assert keys[..m + 1][..m] == keys[..m];
      BarsNoneExtends(history, keys, m + 1, maxXP);
    } else {
      assert keys[..m] == keys;
    }
  }

  lemma BarsStep(history: map<string, Json>, keys: seq<string>, m: nat, maxXP: int, acc: seq<Bar>, xp: int)
    requires m < |keys| && Bars(history, keys[..m], maxXP) == Some(acc) && DayXP(history, keys[m]) == Some(xp)
    ensures Bars(history, keys[..m + 1], maxXP) == Some(acc + [Bar(DateLabel(keys[m]), Clamp(xp, maxXP))])
  {
    assert keys[..m + 1][..m] == keys[..m];
  }

  /** The keys of the fourteen days, oldest first: `keyOf(i)` is the ISO date `i` days before today. */
  function LastDays(keyOf: int -> string): (r: seq<string>)
    ensures |r| == 14 && forall j :: 0 <= j < 14 ==> r[j] == keyOf(13 - j)
  {
    seq(14, j requires 0 <= j < 14 => keyOf(13 - j))
  }

  /** One day of the loop: `xp = 0`, then, for a record, 150 per key of its `checkedItems` (which may throw). */
  method DayEstimate(history: map<string, Json>, key: string) returns (xp: Option<int>)
    ensures xp == DayXP(history, key)
  {
    var n := 0;
    if key in history && Truthy(history[key]) {
      var count := KeyCount(Property(history[key], "checkedItems"));
      if count.None? {
        return None;
      }
      n := count.value * XpPerKey;
    }
    xp := Some(n);
  }

  /** One pass of the loop body: the bar of `key`, the day at position `m`, pushed onto `acc`. */
  method PushDay(history: map<string, Json>, ghost days: seq<string>, ghost m: nat, key: string, maxXP: int, acc: seq<Bar>)
    returns (next: Option<seq<Bar>>)
    requires m < |days| && days[m] == key && Bars(history, days[..m], maxXP) == Some(acc)
    ensures next == Bars(history, days[..m + 1], maxXP)
  {
    var dayXP := DayEstimate(history, key);
    if dayXP.None? {
      assert days[..m + 1][..m] == days[..m];
      return None;
    }
    var xp := dayXP.value;
    BarsStep(history, days, m, maxXP, acc, xp);
    next := Some(acc + [Bar(DateLabel(key), if xp > maxXP then maxXP else xp)]);
  }

  /** The `data` memo: counting down from 13 days ago to today, one bar per day. */
  method StatsData(history: map<string, Json>, keyOf: int -> string, maxXP: int) returns (result: Option<seq<Bar>>)
    ensures result == Bars(history, LastDays(keyOf), maxXP)
  {
    ghost var days := LastDays(keyOf);
    var acc: seq<Bar> := [];
    var i := 13;
    while i >= 0
      invariant -1 <= i <= 13
      invariant Bars(history, days[..13 - i], maxXP) == Some(acc)
      decreases i + 1
    {
      var key := keyOf(i);
      ghost var m := 13 - i;
      assert days[m] == key;
      var next := PushDay(history, days, m, key, maxXP, acc);
      if next.None? {
        BarsNoneExtends(history, days, m + 1, maxXP);
        return None;
      }
      acc := next.value;
      i := i - 1;
    }
    assert days[..14] == days;
    result := Some(acc);
  }

  datatype BarColor = Mint | Gold | Slate

  /** The bar colour: mint (#66c5a5) above 5000, gold (#f5c15c) above 2000, slate (#334155) otherwise. */
  function ColorOf(xp: int): (c: BarColor)
    ensures c == Mint <==> xp > 5000
    ensures c == Gold <==> 2000 < xp <= 5000
    ensures c == Slate <==> xp <= 2000
  {
    if xp > 5000 then Mint else if xp > 2000 then Gold else Slate
  }
}
