/** The season of a date and the "bert" widget drawn for it. */
module Seasons {
  import opened Wrappers
  import opened Widgets
  import Assets

  datatype Season = Summer | Autumn | Winter | Spring

  datatype Date = Date(year: int, month: int, day: int)

  /** The southern-hemisphere month table; any month outside 12 and 1..8 falls to spring. */
  function SeasonOfMonth(month: int): (s: Season)
    ensures s == Summer <==> month in {12, 1, 2}
    ensures s == Autumn <==> month in {3, 4, 5}
    ensures s == Winter <==> month in {6, 7, 8}
    ensures s == Spring <==> month !in {12, 1, 2, 3, 4, 5, 6, 7, 8}
  {
    match month
    case 12 => Summer
    case 1 => Summer
    case 2 => Summer
    case 3 => Autumn
    case 4 => Autumn
    case 5 => Autumn
    case 6 => Winter
    case 7 => Winter
    case 8 => Winter
    case _ => Spring
  }

  /** `get_season(now)`: the given date decides; `today` (the clock) is used only when none is given. */
  function GetSeason(now: Option<Date>, today: Date): (s: Season)
    ensures now.Some? ==> s == SeasonOfMonth(now.value.month)
    ensures now.None? ==> s == SeasonOfMonth(today.month)
  {
    var date := match now case Some(d) => d case None => today;
    SeasonOfMonth(date.month)
  }

  /** The calendar months that fall in season `s`. */
  function MonthsOf(s: Season): set<int>
  {
    set m | 1 <= m <= 12 && SeasonOfMonth(m) == s
  }

  /** The twelve months split into four seasons of three months each. */
  lemma ThreeMonthsEach(s: Season)
    ensures |MonthsOf(s)| == 3
  {
    match s
    case Summer => assert MonthsOf(s) == {12, 1, 2};
    case Autumn => assert MonthsOf(s) == {3, 4, 5};
    case Winter => assert MonthsOf(s) == {6, 7, 8};
    case Spring => assert MonthsOf(s) == {9, 10, 11};
  }

  /** `name_lookup`: which tree sprite each season shows. */
  const NAME_LOOKUP: map<Season, string> :=
    map[Autumn := "leafless", Winter := "leafless", Spring := "bloom", Summer := "bloom"]

  /** The lookup never raises `KeyError`: every season has a sprite. */
  lemma NameLookupTotal(s: Season)
    ensures s in NAME_LOOKUP
    ensures NAME_LOOKUP[s] == "leafless" <==> s in {Autumn, Winter}
    ensures NAME_LOOKUP[s] == "bloom" <==> s in {Spring, Summer}
  {
  }

  const BERT_WIDGET: string := "bert"
  const BERT_Z: int := -99

  function BertPath(s: Season): string
  {
    NameLookupTotal(s);
    "assets/bert/" + NAME_LOOKUP[s] + ".bmp"
  }

  /** `get_bert`: the sprite for today's season as the "bert" widget. */
  function GetBert(today: Date, store: Assets.Store): (r: Result<Widget>)
    ensures r.Ok? <==> BertPath(SeasonOfMonth(today.month)) in store
    ensures r.Ok? ==> r.value.name == BERT_WIDGET && r.value.z == BERT_Z
    ensures r.Ok? ==> r.value.bw == store[BertPath(SeasonOfMonth(today.month))] && r.value.red == Blank()
    ensures r.Err? ==> r.error == ResourceMissing(BertPath(SeasonOfMonth(today.month)))
  {
    var season := GetSeason(None, today);
    Assets.AssetWidget(store, BertPath(season), BERT_WIDGET, BERT_Z)
  }
}
