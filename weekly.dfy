/** Weekly journey chaining, as app/ui/tabs/generated_reflection.py defines
    it (app/ui/ui_components.py has the same `get_weekly_themes`): the themes
    of the past week ranked by how often they recur, and the chain of
    prompts offered for a theme. The instant of a timestamp
    (`pd.to_datetime`) and the cutoff (`datetime.now()` less seven days) are
    parameters. */
module Weekly {
  import opened Basics
  import opened Text
  import opened Journal
  import opened Sorting

  /** Every entry has a timestamp, which `e["timestamp"]` needs. */
  predicate AllStamped(journal: seq<Entry>) {
    forall e :: e in journal ==> "timestamp" in e
  }

  /** `[e for e in journal if pd.to_datetime(e["timestamp"]) >= cutoff]`:
      every entry from the cutoff on, as often as the journal holds it, and
      no other. */
  function Recent(journal: seq<Entry>, instant: string -> int, cutoff: int): (recent: seq<Entry>)
    requires AllStamped(journal)
    ensures forall e :: e in recent <==> e in journal && instant(e["timestamp"]) >= cutoff
    ensures forall e :: e in journal ==>
              multiset(recent)[e] == if instant(e["timestamp"]) >= cutoff then multiset(journal)[e] else 0
  {
    if journal == [] then []
    else
      var init, last := journal[..|journal| - 1], journal[|journal| - 1];
      assert journal == init + [last];
      var r := Recent(init, instant, cutoff) + (if instant(last["timestamp"]) >= cutoff then [last] else []);
      assert multiset(journal) == multiset(init) + multiset{last};
      assert forall e :: e in init ==> e in journal;
      r
  }

  /** `themes` of `get_weekly_themes`: the truthy themes of the recent
      entries, one per entry. */
  function RecentThemes(journal: seq<Entry>, instant: string -> int, cutoff: int): seq<string>
    requires AllStamped(journal)
  {
    Truthy(Recent(journal, instant, cutoff), "theme")
  }

  /** A theme is among the recent ones exactly when an entry from the
      cutoff on carries it. */
  lemma RecentThemesSpec(journal: seq<Entry>, instant: string -> int, cutoff: int)
    requires AllStamped(journal)
    ensures forall t :: t in RecentThemes(journal, instant, cutoff) <==>
              exists e :: e in journal && instant(e["timestamp"]) >= cutoff && HasValue(e, "theme") && e["theme"] == t
  {
    var recent := Recent(journal, instant, cutoff);
    forall t ensures t in RecentThemes(journal, instant, cutoff) <==>
                     exists e :: e in journal && instant(e["timestamp"]) >= cutoff && HasValue(e, "theme") && e["theme"] == t
    {
      if t in RecentThemes(journal, instant, cutoff) {
        var e :| e in recent && HasValue(e, "theme") && e["theme"] == t;
        assert e in journal && instant(e["timestamp"]) >= cutoff;
      }
      if exists e :: e in journal && instant(e["timestamp"]) >= cutoff && HasValue(e, "theme") && e["theme"] == t {
        var e :| e in journal && instant(e["timestamp"]) >= cutoff && HasValue(e, "theme") && e["theme"] == t;
        assert e in recent;
      }
    }
  }

  /** `sorted(set(themes), key=themes.count, reverse=True)`: each theme once,
      more frequent ones first. */
  function RankByCount(themes: seq<string>): (r: seq<string>)
    ensures Distinct(r)
    ensures forall t :: t in r <==> t in themes
    ensures ByCountDescending(r, themes)
  {
    var distinct := Dedup(themes);
    DedupSpec(themes);
    var ranked := SortByCountDescending(distinct, themes);
    MultisetOfDistinct(distinct);
    assert forall t :: t in ranked <==> t in multiset(ranked);
    DistinctByMultiset(ranked);
    ranked
  }

  /** `get_weekly_themes(journal)`: fails (a `KeyError`) when an entry has no
      timestamp; otherwise the distinct non-empty themes of the entries from
      the cutoff on, each once, more frequent ones first, and nothing when
      there are none. The order of the set the source sorts is unspecified;
      here it is the order of first occurrence. */
  function GetWeeklyThemes(journal: seq<Entry>, instant: string -> int, cutoff: int): (r: Option<seq<string>>)
    ensures r.None? <==> !AllStamped(journal)
    ensures r.Some? ==> Distinct(r.value)
    ensures r.Some? ==> forall t :: t in r.value <==>
              exists e :: e in journal && instant(e["timestamp"]) >= cutoff && HasValue(e, "theme") && e["theme"] == t
    ensures r.Some? ==> ByCountDescending(r.value, RecentThemes(journal, instant, cutoff))
  {
    if !AllStamped(journal) then None
    else
      RecentThemesSpec(journal, instant, cutoff);
      Some(RankByCount(RecentThemes(journal, instant, cutoff)))
  }

  /** `generate_weekly_chain_prompt(theme)` of
      app/ui/tabs/generated_reflection.py: three prompts about the theme,
      lower-cased. */
  function ChainTemplate(theme: string): (prompts: seq<string>)
    ensures |prompts| == 3
    ensures forall p :: p in prompts ==> Contains(p, Lower(theme))
  {
    var t := Lower(theme);
    var p1 := "What has " + t + " meant to you this week?";
    var p2 := "Is there a moment that deepened your sense of " + t + "?";
    var p3 := "What intention will guide your " + t + " next week?";
    ContainsMiddle("What has ", t, " meant to you this week?");
    ContainsMiddle("Is there a moment that deepened your sense of ", t, "?");
    ContainsMiddle("What intention will guide your ", t, " next week?");
    [p1, p2, p3]
  }
}
