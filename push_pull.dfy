/**
 * The push/pull development guide: a constant table of development times per film and
 * developer, the time shown for the selected exposure stop, the effective ISO, the warning
 * text, and the reference table. Minutes are exact reals.
 */
module PushPull {
  import opened Wrappers
  import opened Seqs

  /** Minutes of development at box speed, one stop pulled and one stop pushed. */
  datatype DevTimes = DevTimes(standard: real, pullOne: real, pushOne: real)

  datatype FilmStock = FilmStock(id: string, nameEn: string, nameZh: string, iso: int, developers: map<string, DevTimes>)

  datatype Developer = Developer(id: string, nameEn: string, nameZh: string)

  /** Exposure adjustment in stops. */
  type IsoStop = s: int | -2 <= s <= 2

  const FilmStocks: seq<FilmStock> := [
    FilmStock("fp4", "Ilford FP4+", "FP4+黑白胶片", 125,
      map["d76" := DevTimes(9.0, 8.0, 12.0)]),
    FilmStock("hp5", "Ilford HP5+", "HP5+黑白胶片", 400,
      map["d76" := DevTimes(7.5, 6.0, 9.0), "ddx" := DevTimes(6.0, 5.0, 7.5)]),
    FilmStock("trix", "Kodak Tri-X 400", "柯达Tri-X黑白胶片", 400,
      map["d76" := DevTimes(7.0, 6.0, 9.0)]),
    FilmStock("tmax100", "Kodak T-Max 100", "柯达T-Max 100黑白胶片", 100,
      map["d76" := DevTimes(9.0, 7.0, 12.0)]),
    FilmStock("delta3200", "Ilford Delta 3200", "Delta 3200黑白胶片", 3200,
      map["d76" := DevTimes(15.0, 12.0, 18.0), "ddx" := DevTimes(14.0, 11.0, 17.0)]),
    FilmStock("tmax3200", "Kodak T-Max 3200", "柯达T-Max 3200黑白胶片", 3200,
      map["d76" := DevTimes(15.0, 12.0, 18.0)]),
    FilmStock("delta100", "Ilford Delta 100", "Delta 100黑白胶片", 100,
      map["d76" := DevTimes(8.0, 6.0, 11.0)])
  ]

  const Developers: seq<Developer> := [
    Developer("d76", "Kodak D-76", "柯达D-76显影液"),
    Developer("ddx", "Ilfotec DD-X", "爱尔福DD-X显影液")
  ]

  /** `filmStocks.find(f => f.id === id)`. */
  function FilmById(id: string): (r: Option<FilmStock>)
    ensures r.None? <==> forall i :: 0 <= i < |FilmStocks| ==> FilmStocks[i].id != id
    ensures r.Some? ==> r.value in FilmStocks && r.value.id == id
  {
    Find((f: FilmStock) => f.id == id, FilmStocks)
  }

  /** The advisory notes the guide can show next to a stop. */
  datatype Note = Pushing | Pulling | ExtremePush | ExtremePull | StandardDevelopment

  function Max(a: real, b: real): real { if a < b then b else a }
  function Min(a: real, b: real): real { if a < b then a else b }

  /** `film.developers[developerId]`, which is `undefined` for a combination without data. */
  function PairTimes(film: FilmStock, developerId: string): (r: Option<DevTimes>)
    ensures r.Some? <==> developerId in film.developers
    ensures r.Some? ==> r.value == film.developers[developerId]
  {
    if developerId in film.developers then Some(film.developers[developerId]) else None
  }

  /** `film.developers[developerId]?.standard || 7`. */
  function FallbackTime(pair: Option<DevTimes>): (r: real)
    ensures r == 7.0 || (pair.Some? && r == pair.value.standard)
    ensures r != 0.0
  {
    if pair.Some? && pair.value.standard != 0.0 then pair.value.standard else 7.0
  }

  /** The time for a confirmed stop: tabulated at -1, 0 and +1, derived and clamped at -2 and +2. */
  function StopTime(t: DevTimes, stop: IsoStop): (r: real)
    ensures stop == -2 ==> r >= 4.0 && r >= t.standard * 0.7
    ensures stop == 2 ==> r <= 15.0 && r <= t.standard * 1.5
    ensures -1 <= stop <= 1 ==> r == t.pullOne || r == t.standard || r == t.pushOne
  {
    if stop == -2 then Max(t.standard * 0.7, 4.0)
    else if stop == -1 then t.pullOne
    else if stop == 1 then t.pushOne
    else if stop == 2 then Min(t.standard * 1.5, 15.0)
    else t.standard
  }

  /** `getDevelopmentTime`. */
  function DevelopmentTime(pair: Option<DevTimes>, stop: IsoStop, confirmed: bool): (r: real)
    ensures pair.None? ==> r == 7.0
    ensures !confirmed ==> r == FallbackTime(pair)
    ensures pair.Some? && confirmed ==> r == StopTime(pair.value, stop)
  {
    if pair.None? || !confirmed then FallbackTime(pair) else StopTime(pair.value, stop)
  }

  /** Powers of two, `Math.pow(2, e)`. */
  function Pow2(e: int): (r: real)
    ensures r > 0.0
    decreases if e < 0 then -e else e
  {
    if e == 0 then 1.0 else if e > 0 then 2.0 * Pow2(e - 1) else Pow2(e + 1) / 2.0
  }

  /** `getEffectiveIso`: `iso * 2^stop`. */
  function EffectiveIso(iso: int, stop: IsoStop): (r: real)
    ensures iso > 0 ==> r > 0.0
    ensures iso == 0 ==> r == 0.0
    ensures stop == 0 ==> r == iso as real
  {
    iso as real * Pow2(stop)
  }

  /** `getIsoWarningMessage`. */
  function IsoWarning(stop: IsoStop): (r: Note)
    ensures r != StandardDevelopment
    ensures (r == ExtremePush || r == ExtremePull) <==> (stop == 2 || stop == -2)
  {
    if stop == 2 || stop == -2 then (if stop == 2 then ExtremePush else ExtremePull)
    else if stop > 0 then Pushing
    else Pulling
  }

  /** A row of the reference table. */
  datatype TableRow = TimeRow(iso: real, minutes: real, stop: IsoStop, note: Note) | NoDataRow

  /** The reference table under the stop selector; each row spells its time formula out itself. */
  function ReferenceRows(film: FilmStock, developerId: string): (r: seq<TableRow>)
    ensures |r| == 5 <==> developerId in film.developers
    ensures developerId !in film.developers ==> r == [NoDataRow]
  {
    if developerId in film.developers then
      var t := film.developers[developerId];
      [ TimeRow(film.iso as real / 4.0, Max(t.standard * 0.7, 4.0), -2, ExtremePull),
        TimeRow(film.iso as real / 2.0, t.pullOne, -1, Pulling),
        TimeRow(film.iso as real, t.standard, 0, StandardDevelopment),
        TimeRow(film.iso as real * 2.0, t.pushOne, 1, Pushing),
        TimeRow(film.iso as real * 4.0, Min(t.standard * 1.5, 15.0), 2, ExtremePush) ]
    else
      [NoDataRow]
  }

  // ---------------------------------------------------------------- properties of the time

  /** With no data for the pair the time is 7 minutes, whatever the stop and confirmation. */
  lemma NoDataIsSeven(stop: IsoStop, confirmed: bool)
    ensures DevelopmentTime(None, stop, confirmed) == 7.0
  {
  }

  /** Before confirmation the time is the pair's standard time (7 when that is 0), whatever the stop. */
  lemma UnconfirmedIsStandard(t: DevTimes, stop: IsoStop)
    ensures DevelopmentTime(Some(t), stop, false) == if t.standard != 0.0 then t.standard else 7.0
  {
  }

  /** Once confirmed, each stop selects its entry or formula. */
  lemma ConfirmedStops(t: DevTimes)
    ensures DevelopmentTime(Some(t), 0, true) == t.standard
    ensures DevelopmentTime(Some(t), -1, true) == t.pullOne
    ensures DevelopmentTime(Some(t), 1, true) == t.pushOne
    ensures DevelopmentTime(Some(t), -2, true) == Max(t.standard * 0.7, 4.0)
    ensures DevelopmentTime(Some(t), 2, true) == Min(t.standard * 1.5, 15.0)
  {
  }

  /** The derived extreme times are clamped: never under 4 minutes at -2, never over 15 at +2. */
  lemma ExtremeStopsClamped(t: DevTimes)
    ensures DevelopmentTime(Some(t), -2, true) >= 4.0
    ensures DevelopmentTime(Some(t), -2, true) >= t.standard * 0.7
    ensures DevelopmentTime(Some(t), 2, true) <= 15.0
    ensures DevelopmentTime(Some(t), 2, true) <= t.standard * 1.5
  {
  }

  /** The tabulated times of a pair are ordered pull < standard < push. */
  ghost predicate Ordered3(t: DevTimes) {
    0.0 < t.pullOne < t.standard < t.pushOne
  }

  /** Every pair in the table is ordered, and every film has data for D-76. */
  lemma TableIsOrdered()
    ensures forall i, d :: 0 <= i < |FilmStocks| && d in FilmStocks[i].developers ==> Ordered3(FilmStocks[i].developers[d])
    ensures forall i :: 0 <= i < |FilmStocks| ==> "d76" in FilmStocks[i].developers
  {
  }

  /** For an ordered pair, the confirmed times of -1, 0, +1 increase with the stop. */
  lemma ConfirmedMiddleStopsIncrease(t: DevTimes)
    requires Ordered3(t)
    ensures 0.0 < DevelopmentTime(Some(t), -1, true) < DevelopmentTime(Some(t), 0, true) < DevelopmentTime(Some(t), 1, true)
  {
  }

  /**
   * The +2 cap ignores the +1 time: in the table, +2 develops for less time than +1 exactly
   * for Delta 3200 (both developers) and T-Max 3200 with D-76, where the cap of 15 is below the +1 time.
   */
  lemma PushTwoBelowPushOne()
    ensures forall i, d :: 0 <= i < |FilmStocks| && d in FilmStocks[i].developers ==>
      var t := FilmStocks[i].developers[d];
      (StopTime(t, 2) < StopTime(t, 1) <==>
         (FilmStocks[i].id == "delta3200" || (FilmStocks[i].id == "tmax3200" && d == "d76")))
    ensures forall i, d :: 0 <= i < |FilmStocks| && d in FilmStocks[i].developers ==>
      StopTime(FilmStocks[i].developers[d], -2) < StopTime(FilmStocks[i].developers[d], -1)
  {
  }

  // ---------------------------------------------------------------- ISO and warnings

  /** One more stop doubles the effective ISO. */
  lemma EffectiveIsoDoubles(iso: int, stop: IsoStop)
    requires stop < 2
    ensures EffectiveIso(iso, stop + 1) == 2.0 * EffectiveIso(iso, stop)
  {
    if stop < 0 {
      assert Pow2(stop) == Pow2(stop + 1) / 2.0;
    }
  }

  /** The effective ISO agrees with the stop buttons' labels iso/4, iso/2, iso, iso*2, iso*4. */
  lemma EffectiveIsoLabels(iso: int)
    ensures EffectiveIso(iso, -2) == iso as real / 4.0
    ensures EffectiveIso(iso, -1) == iso as real / 2.0
    ensures EffectiveIso(iso, 0) == iso as real
    ensures EffectiveIso(iso, 1) == iso as real * 2.0
    ensures EffectiveIso(iso, 2) == iso as real * 4.0
  {
  }

  /** The warning: extreme notes at +-2, the pushing note above 0, and the pulling note at -1 and also at 0. */
  lemma IsoWarningChoice(stop: IsoStop)
    ensures IsoWarning(stop) == ExtremePush <==> stop == 2
    ensures IsoWarning(stop) == ExtremePull <==> stop == -2
    ensures IsoWarning(stop) == Pushing <==> stop == 1
    ensures IsoWarning(stop) == Pulling <==> stop == -1 || stop == 0
    ensures IsoWarning(stop) != StandardDevelopment
  {
  }

  /**
   * The reference table has five rows, one per stop from -2 to +2, with the confirmed time and
   * the effective ISO of that stop, when the pair has data; otherwise a single "no data" row.
   */
  lemma {:induction false} ReferenceRowsAgree(film: FilmStock, developerId: string)
    ensures developerId !in film.developers ==> ReferenceRows(film, developerId) == [NoDataRow]
    ensures developerId in film.developers ==>
      var rows := ReferenceRows(film, developerId);
      && |rows| == 5
      && forall i :: 0 <= i < 5 ==>
        && rows[i].TimeRow?
        && rows[i].stop == i - 2
        && rows[i].minutes == DevelopmentTime(PairTimes(film, developerId), i - 2, true)
        && rows[i].iso == EffectiveIso(film.iso, i - 2)
  {
    EffectiveIsoLabels(film.iso);
  }

  // ---------------------------------------------------------------- the component state

  /** The guide's selections: film, developer, stop, and whether the stop change was confirmed. */
  class PushPullGuide {
    var selectedFilm: string
    var selectedDeveloper: string
    var selectedIsoStop: IsoStop
    var isIsoConfirmed: bool

    /** The selections name a film and a developer of the tables (the selectors offer only those). */
    ghost predicate Valid()
      reads this
    {
      && (exists i :: 0 <= i < |FilmStocks| && FilmStocks[i].id == selectedFilm)
      && (exists i :: 0 <= i < |Developers| && Developers[i].id == selectedDeveloper)
    }

    /** `filmStocks.find(f => f.id === selectedFilm)!`. */
    function Film(): (f: FilmStock)
      reads this
      requires Valid()
      ensures f in FilmStocks && f.id == selectedFilm
    {
      var found := FilmById(selectedFilm);
      assert found.Some?;
      found.value
    }

    function Pair(): Option<DevTimes>
      reads this
      requires Valid()
    {
      PairTimes(Film(), selectedDeveloper)
    }

    function GetDevelopmentTime(): (r: real)
      reads this
      requires Valid()
      ensures Pair().None? ==> r == 7.0
      ensures !isIsoConfirmed ==> r == FallbackTime(Pair())
      ensures isIsoConfirmed && Pair().Some? ==> r == StopTime(Pair().value, selectedIsoStop)
    {
      DevelopmentTime(Pair(), selectedIsoStop, isIsoConfirmed)
    }

    function GetEffectiveIso(): (r: real)
      reads this
      requires Valid()
      ensures Film().iso > 0 ==> r > 0.0
      ensures selectedIsoStop == 0 ==> r == Film().iso as real
    {
      EffectiveIso(Film().iso, selectedIsoStop)
    }

    function GetIsoWarningMessage(): (r: Note)
      reads this
      ensures r != StandardDevelopment
    {
      IsoWarning(selectedIsoStop)
    }

    function Rows(): (r: seq<TableRow>)
      reads this
      requires Valid()
      ensures |r| == 5 <==> Pair().Some?
      ensures Pair().None? ==> r == [NoDataRow]
    {
      ReferenceRows(Film(), selectedDeveloper)
    }

    /** The first film and the first developer, box speed, nothing pending. */
    constructor ()
      ensures Valid()
      ensures selectedFilm == "fp4" && selectedDeveloper == "d76" && selectedIsoStop == 0 && isIsoConfirmed
      ensures GetDevelopmentTime() == 9.0
    {
      selectedFilm := "fp4";
      selectedDeveloper := "d76";
      selectedIsoStop := 0;
      isIsoConfirmed := true;
      assert FilmById("fp4") == Some(FilmStocks[0]);
      assert Developers[0].id == "d76";
    }

    /** Choosing another film keeps the stop and the confirmation state. */
    method SelectFilm(id: string)
      requires Valid()
      requires exists i :: 0 <= i < |FilmStocks| && FilmStocks[i].id == id
      modifies this
      ensures Valid()
      ensures selectedFilm == id && Film().id == id
      ensures selectedDeveloper == old(selectedDeveloper) && selectedIsoStop == old(selectedIsoStop)
      ensures isIsoConfirmed == old(isIsoConfirmed)
    {
      ghost var k :| 0 <= k < |FilmStocks| && FilmStocks[k].id == id;
      selectedFilm := id;
      assert FilmStocks[k].id == selectedFilm;
      assert Valid();
      ghost var f := Film();
      assert f.id == id;
    }

    /** Choosing another developer keeps the stop and the confirmation state. */
    method SelectDeveloper(id: string)
      requires Valid()
      requires exists i :: 0 <= i < |Developers| && Developers[i].id == id
      modifies this
      ensures Valid()
      ensures selectedDeveloper == id
      ensures selectedFilm == old(selectedFilm) && selectedIsoStop == old(selectedIsoStop)
      ensures isIsoConfirmed == old(isIsoConfirmed)
    {
      selectedDeveloper := id;
    }

    /** `handleIsoChange`: the stop changes, and the time falls back to the standard one until confirmed. */
    method HandleIsoChange(stop: IsoStop)
      requires Valid()
      modifies this
      ensures Valid()
      ensures selectedIsoStop == stop && !isIsoConfirmed
      ensures selectedFilm == old(selectedFilm) && selectedDeveloper == old(selectedDeveloper)
      ensures GetDevelopmentTime() == FallbackTime(Pair())
      ensures GetIsoWarningMessage() == IsoWarning(stop)
    {
      selectedIsoStop := stop;
      isIsoConfirmed := false;
    }

    /** The confirm button: the time becomes the selected stop's time. */
    method ConfirmIsoChange()
      requires Valid()
      modifies this
      ensures Valid()
      ensures isIsoConfirmed
      ensures selectedFilm == old(selectedFilm) && selectedDeveloper == old(selectedDeveloper)
      ensures selectedIsoStop == old(selectedIsoStop)
      ensures Pair().Some? ==> GetDevelopmentTime() == StopTime(Pair().value, selectedIsoStop)
      ensures Pair().None? ==> GetDevelopmentTime() == 7.0
    {
      isIsoConfirmed := true;
    }
  }
}
