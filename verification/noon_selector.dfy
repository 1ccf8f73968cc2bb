/**
 * The loop of `get_weather_forecast` that picks one forecast entry for the target
 * date. The loop keeps `min_time_diff` as a duration, resets it to a number of
 * hours, and then compares its length in SECONDS against a raw hour distance.
 * This module keeps that comparison as written and proves what it amounts to:
 * the first entry at hour 12 wins, and when there is none the last matching entry wins.
 */
module NoonSelector {
  import opened Wrappers

  /** An hour of the day, as `datetime.hour` gives it. */
  type Hour = h: int | 0 <= h < 24

  /** A minute of the hour. */
  type Minute = m: int | 0 <= m < 60

  /**
   * An entry's `dt_txt`: missing or empty, present but not a timestamp (parsing
   * it raises), or a timestamp on a day number with an hour and a minute.
   */
  datatype Stamp = Absent | Garbled(detail: string) | At(date: int, hour: Hour, minute: Minute)

  /** An entry's `weather[0].description` and `main.temp`, or the error reading them raises. */
  datatype Reading = Readable(description: string, temp: real) | Unreadable(detail: string)

  /** One element of the forecast `list`. */
  datatype Entry = Entry(stamp: Stamp, reading: Reading)

  /** The loop state: `min_time_diff.total_seconds()` and the position of `target_forecast`. */
  datatype NoonState = NoonState(minSeconds: int, chosen: Option<nat>)

  /** `timedelta(days=2).total_seconds()`, the initial `min_time_diff`. */
  const TwoDaysSeconds: int := 172800

  /** `timedelta(hours=1).total_seconds()`. */
  const SecondsPerHour: int := 3600

  const Start: NoonState := NoonState(TwoDaysSeconds, None)

  /** `abs(hour - 12)`, a number of whole hours. */
  function HourDistance(hour: Hour): (d: nat)
    ensures d <= 12
    ensures d == 0 <==> hour == 12
  {
    if hour >= 12 then hour - 12 else 12 - hour
  }

  /**
   * The loop from position `i` on, starting in state `st`. The entry kept at the
   * end is either the one kept on entry or a later entry on the target date.
   * The threshold itself can grow: after an 11:00 match (3600) a 23:00 match
   * (distance 11) resets it to 39600.
   */
  function Scan(es: seq<Entry>, target: int, i: nat, st: NoonState): (r: Attempt<NoonState>)
    requires i <= |es|
    ensures r.Ok? ==>
      (r.value.chosen == st.chosen ||
       (r.value.chosen.Some? && i <= r.value.chosen.value < |es| && Matches(es[r.value.chosen.value], target)))
    decreases |es| - i
  {
    if i == |es| then Ok(st)
    else match es[i].stamp
      case Absent => Scan(es, target, i + 1, st)
      case Garbled(detail) => Raised(detail)
      case At(date, hour, _) =>
        if date == target && HourDistance(hour) < st.minSeconds then
          Scan(es, target, i + 1, NoonState(HourDistance(hour) * SecondsPerHour, Some(i)))
        else
          Scan(es, target, i + 1, st)
  }

  // ----- Reference vocabulary -----

  /** The entry has a timestamp on the target date. */
  predicate Matches(e: Entry, target: int)
  {
    e.stamp.At? && e.stamp.date == target
  }

  /** The entry has a timestamp at hour 12 of the target date. */
  predicate AtNoon(e: Entry, target: int)
  {
    Matches(e, target) && e.stamp.hour == 12
  }

  predicate NoGarbledFrom(es: seq<Entry>, lo: int)
  {
    forall j :: lo <= j < |es| && 0 <= j ==> !es[j].stamp.Garbled?
  }

  /** `k` is the first entry from position `lo` on whose `dt_txt` fails to parse. */
  predicate IsFirstGarbled(es: seq<Entry>, lo: nat, k: nat)
  {
    lo <= k < |es| && es[k].stamp.Garbled? && forall j :: lo <= j < k ==> !es[j].stamp.Garbled?
  }

  /** No entry's `dt_txt` fails to parse. */
  predicate NoGarbled(es: seq<Entry>)
  {
    NoGarbledFrom(es, 0)
  }

  predicate NoMatchIn(es: seq<Entry>, target: int, lo: int, hi: int)
  {
    forall j :: 0 <= lo <= j < hi <= |es| ==> !Matches(es[j], target)
  }

  predicate NoNoonIn(es: seq<Entry>, target: int, lo: int, hi: int)
  {
    forall j :: 0 <= lo <= j < hi <= |es| ==> !AtNoon(es[j], target)
  }

  predicate HasMatch(es: seq<Entry>, target: int)
  {
    exists k :: 0 <= k < |es| && Matches(es[k], target)
  }

  predicate HasNoon(es: seq<Entry>, target: int)
  {
    exists k :: 0 <= k < |es| && AtNoon(es[k], target)
  }

  /** `k` is the first entry at noon on the target date. */
  predicate IsFirstNoon(es: seq<Entry>, target: int, k: nat)
  {
    k < |es| && AtNoon(es[k], target) && forall j :: 0 <= j < k ==> !AtNoon(es[j], target)
  }

  /** `k` is the last entry on the target date. */
  predicate IsLastMatch(es: seq<Entry>, target: int, k: nat)
  {
    k < |es| && Matches(es[k], target) && forall j :: k < j < |es| ==> !Matches(es[j], target)
  }

  /** The choice the selector is proved to make: first noon entry, else last match, else nothing. */
  predicate FirstNoonElseLast(es: seq<Entry>, target: int, c: Option<nat>)
  {
    if HasNoon(es, target) then c.Some? && IsFirstNoon(es, target, c.value)
    else if HasMatch(es, target) then c.Some? && IsLastMatch(es, target, c.value)
    else c.None?
  }

  /**
   * The selector. It raises the error of the first entry whose `dt_txt` does not
   * parse, wherever that entry lies. Otherwise it returns the position of the
   * entry it kept: the first entry at hour 12 of the target date if there is
   * one (no later entry replaces it), otherwise the last entry on the target
   * date, and None when no entry lies on the target date.
   */
  function SelectNoon(es: seq<Entry>, target: int): (r: Attempt<Option<nat>>)
    ensures r.Ok? <==> NoGarbled(es)
    ensures r.Raised? ==> exists k: nat :: IsFirstGarbled(es, 0, k) && es[k].stamp == Garbled(r.detail)
    ensures r.Ok? ==> FirstNoonElseLast(es, target, r.value)
    ensures r.Ok? && r.value.Some? ==> r.value.value < |es| && Matches(es[r.value.value], target)
    ensures r.Ok? ==> (r.value.None? <==> !HasMatch(es, target))
  {
    ScanRaisesOnFirstGarbled(es, target, 0, Start);
    match Scan(es, target, 0, Start)
    case Raised(detail) => Raised(detail)
    case Ok(st) =>
      ScanEndsWithFirstNoonElseLast(es, target, 0, Start);
      Ok(st.chosen)
  }

  // ----- Proofs -----

  /** The loop raises exactly when a later entry is garbled, and then with that entry's error. */
  lemma {:induction false} ScanRaisesOnFirstGarbled(es: seq<Entry>, target: int, i: nat, st: NoonState)
    requires i <= |es|
    ensures Scan(es, target, i, st).Ok? <==> NoGarbledFrom(es, i)
    ensures Scan(es, target, i, st).Raised? ==>
      exists k: nat :: IsFirstGarbled(es, i, k) && es[k].stamp == Garbled(Scan(es, target, i, st).detail)
    decreases |es| - i
  {
    if i < |es| {
      match es[i].stamp
      case Absent =>
        ScanRaisesOnFirstGarbled(es, target, i + 1, st);
      case Garbled(_) =>
        assert IsFirstGarbled(es, i, i);
      case At(date, hour, _) =>
        if date == target && HourDistance(hour) < st.minSeconds {
          ScanRaisesOnFirstGarbled(es, target, i + 1, NoonState(HourDistance(hour) * SecondsPerHour, Some(i)));
        } else {
          ScanRaisesOnFirstGarbled(es, target, i + 1, st);
        }
    }
  }

  /**
   * What the loop state means after the first `i` entries. With nothing kept the
   * threshold is still two days' worth of seconds and no entry matched. A kept
   * noon entry is the first one and leaves a threshold of 0, which no distance
   * undercuts. A kept entry off noon leaves a threshold of at least 3600, which
   * every distance (at most 12) undercuts, so it is the last match so far.
   */
  predicate ScanInvariant(es: seq<Entry>, target: int, i: nat, st: NoonState)
  {
    && i <= |es|
    && match st.chosen
       case None => st.minSeconds == TwoDaysSeconds && NoMatchIn(es, target, 0, i)
       case Some(k) =>
         && k < i
         && Matches(es[k], target)
         && if es[k].stamp.hour == 12 then
              st.minSeconds == 0 && NoNoonIn(es, target, 0, k)
            else
              st.minSeconds >= SecondsPerHour && NoNoonIn(es, target, 0, i) && NoMatchIn(es, target, k + 1, i)
  }

  /** One iteration keeps the invariant. */
  lemma ScanStep(es: seq<Entry>, target: int, i: nat, st: NoonState)
    requires i < |es| && ScanInvariant(es, target, i, st) && !es[i].stamp.Garbled?
    ensures es[i].stamp.At? && es[i].stamp.date == target && HourDistance(es[i].stamp.hour) < st.minSeconds ==>
      ScanInvariant(es, target, i + 1, NoonState(HourDistance(es[i].stamp.hour) * SecondsPerHour, Some(i)))
    ensures !(es[i].stamp.At? && es[i].stamp.date == target && HourDistance(es[i].stamp.hour) < st.minSeconds) ==>
      ScanInvariant(es, target, i + 1, st)
  {
  }

  /** From a state meeting the invariant, the loop ends with the first noon entry, else the last match. */
  lemma {:induction false} ScanEndsWithFirstNoonElseLast(es: seq<Entry>, target: int, i: nat, st: NoonState)
    requires ScanInvariant(es, target, i, st) && NoGarbledFrom(es, i)
    ensures Scan(es, target, i, st).Ok?
    ensures FirstNoonElseLast(es, target, Scan(es, target, i, st).value.chosen)
    decreases |es| - i
  {
    if i == |es| {
      match st.chosen
      case None =>
      case Some(k) =>
        if es[k].stamp.hour == 12 {
          assert AtNoon(es[k], target);
        }
    } else {
      ScanStep(es, target, i, st);
      match es[i].stamp
      case Absent =>
        ScanEndsWithFirstNoonElseLast(es, target, i + 1, st);
      case At(date, hour, _) =>
        if date == target && HourDistance(hour) < st.minSeconds {
          ScanEndsWithFirstNoonElseLast(es, target, i + 1, NoonState(HourDistance(hour) * SecondsPerHour, Some(i)));
        } else {
          ScanEndsWithFirstNoonElseLast(es, target, i + 1, st);
        }
    }
  }

  // ----- Whole hours only -----

  /** Two stamps that differ at most in their minutes. */
  predicate SameHour(a: Stamp, b: Stamp)
  {
    if a.At? then b.At? && b.date == a.date && b.hour == a.hour else b == a
  }

  /** Two forecast lists whose timestamps agree up to minutes; their readings may differ. */
  predicate SameHours(es1: seq<Entry>, es2: seq<Entry>)
  {
    |es1| == |es2| && forall j :: 0 <= j < |es1| ==> SameHour(es1[j].stamp, es2[j].stamp)
  }

  lemma {:induction false} ScanIgnoresMinutes(es1: seq<Entry>, es2: seq<Entry>, target: int, i: nat, st: NoonState)
    requires SameHours(es1, es2) && i <= |es1|
    ensures Scan(es1, target, i, st) == Scan(es2, target, i, st)
    decreases |es1| - i
  {
    if i < |es1| {
      assert SameHour(es1[i].stamp, es2[i].stamp);
      match es1[i].stamp
      case Absent =>
        ScanIgnoresMinutes(es1, es2, target, i + 1, st);
      case Garbled(_) =>
      case At(date, hour, _) =>
        if date == target && HourDistance(hour) < st.minSeconds {
          ScanIgnoresMinutes(es1, es2, target, i + 1, NoonState(HourDistance(hour) * SecondsPerHour, Some(i)));
        } else {
          ScanIgnoresMinutes(es1, es2, target, i + 1, st);
        }
    }
  }

  /** The distance to noon uses `entry_dt.hour` alone: moving entries within their hour never changes the choice. */
  lemma SelectNoonIgnoresMinutes(es1: seq<Entry>, es2: seq<Entry>, target: int)
    requires SameHours(es1, es2)
    ensures SelectNoon(es1, target) == SelectNoon(es2, target)
  {
    ScanIgnoresMinutes(es1, es2, target, 0, Start);
  }

  // ----- Against "closest to noon, first on ties" -----

  /**
   * `k` is on the target date, no matching entry is nearer to hour 12, and every
   * earlier matching entry is strictly farther: the selection a closest-to-noon
   * loop with first-wins ties would make.
   */
  predicate IsClosestFirst(es: seq<Entry>, target: int, k: nat)
  {
    && k < |es| && Matches(es[k], target)
    && (forall j :: 0 <= j < |es| && Matches(es[j], target) ==>
          HourDistance(es[k].stamp.hour) <= HourDistance(es[j].stamp.hour))
    && (forall j :: 0 <= j < k && Matches(es[j], target) ==>
          HourDistance(es[k].stamp.hour) < HourDistance(es[j].stamp.hour))
  }

  /** When some entry is at hour 12 the selector agrees with the closest-to-noon reading. */
  lemma SelectNoonIsClosestWhenNoonPresent(es: seq<Entry>, target: int)
    requires NoGarbled(es) && HasNoon(es, target)
    ensures SelectNoon(es, target).Ok? && SelectNoon(es, target).value.Some?
    ensures IsClosestFirst(es, target, SelectNoon(es, target).value.value)
  {
    var k := SelectNoon(es, target).value.value;
    assert IsFirstNoon(es, target, k);
    forall j | 0 <= j < k && Matches(es[j], target)
      ensures HourDistance(es[k].stamp.hour) < HourDistance(es[j].stamp.hour)
    {
      assert !AtNoon(es[j], target);
    }
  }

  function EntryAt(date: int, hour: Hour): Entry
  {
    Entry(At(date, hour, 0), Readable("clear sky", 20.0))
  }

  /** Entries at 09:00, 12:00 and 15:00 of the target date: the 12:00 entry is chosen. */
  lemma NoonBeatsNeighbours()
    ensures SelectNoon([EntryAt(7, 9), EntryAt(7, 12), EntryAt(7, 15)], 7) == Ok(Some(1))
  {
    var es := [EntryAt(7, 9), EntryAt(7, 12), EntryAt(7, 15)];
    assert IsFirstNoon(es, 7, 1);
  }

  /**
   * Without a noon entry the selector does not measure closeness: of 09:00 and
   * 15:00 it keeps 15:00, the later of two entries equally far from noon, and of
   * 11:00 and 21:00 it keeps 21:00, though 11:00 is nearer.
   */
  lemma SelectNoonDivergesFromClosest()
    ensures SelectNoon([EntryAt(7, 9), EntryAt(7, 15)], 7) == Ok(Some(1))
    ensures IsClosestFirst([EntryAt(7, 9), EntryAt(7, 15)], 7, 0)
    ensures SelectNoon([EntryAt(7, 11), EntryAt(7, 21)], 7) == Ok(Some(1))
    ensures IsClosestFirst([EntryAt(7, 11), EntryAt(7, 21)], 7, 0)
  {
    var es := [EntryAt(7, 9), EntryAt(7, 15)];
    assert !HasNoon(es, 7) && IsLastMatch(es, 7, 1);
    var fs := [EntryAt(7, 11), EntryAt(7, 21)];
    assert !HasNoon(fs, 7) && IsLastMatch(fs, 7, 1);
  }

  /** Of two entries whose timestamps do not parse, the earlier one's error is raised. */
  lemma FirstGarbledErrorWins()
    ensures SelectNoon([Entry(Garbled("a"), Unreadable("x")), Entry(Garbled("b"), Unreadable("y"))], 7) == Raised("a")
  {
  }
}
