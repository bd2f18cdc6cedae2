/**
 * How the three scripts fit together: their hard-coded tables agree, and
 * the merge reads exactly the artifacts the scraper writes.
 */
module Pipeline {
  import opened Wrappers
  import opened Json
  import opened Events
  import Crawler
  import Scraper
  import Merge

  /** The directory the merge script runs in, relative to where the scraper runs. */
  const MergeCwd := "web_scraping_llms/"

  /**
   * The crawler lists the scraper's categories, in the same order, with the
   * same listing pages, and its `if/elif` chain picks the scraper's section id.
   */
  lemma CrawlerAgreesWithScraper()
    ensures |Crawler.CrawlerSources| == |Scraper.Sources|
    ensures forall i :: 0 <= i < |Scraper.Sources| ==>
      Crawler.CrawlerSources[i] == (Scraper.Sources[i].0, Scraper.Sources[i].1.0) &&
      Crawler.AnchorIdFor(Scraper.Sources[i].0) == Some(Scraper.Sources[i].1.1)
  {
    forall i | 0 <= i < |Scraper.Sources|
      ensures Crawler.CrawlerSources[i] == (Scraper.Sources[i].0, Scraper.Sources[i].1.0)
      ensures Crawler.AnchorIdFor(Scraper.Sources[i].0) == Some(Scraper.Sources[i].1.1)
    {
      if i == 0 {
      } else if i == 1 {
      } else if i == 2 {
      } else {
      }
    }
  }

  /** The chain knows a category exactly when the scraper's table lists it. */
  lemma AnchorKnownIffListed(category: string)
    ensures Crawler.AnchorIdFor(category).Some? <==>
      exists i :: 0 <= i < |Scraper.Sources| && Scraper.Sources[i].0 == category
  {
    CrawlerAgreesWithScraper();
    if category == "exposiciones" {
      assert Scraper.Sources[0].0 == category;
    } else if category == "actividades" {
      assert Scraper.Sources[1].0 == category;
    } else if category == "planetario" {
      assert Scraper.Sources[2].0 == category;
    } else if category == "conferencias" {
      assert Scraper.Sources[3].0 == category;
    } else {
      assert Crawler.AnchorIdFor(category).None?;
    }
  }

  /** The files the merge reads, seen from the scraper's directory. */
  function MergedPaths(): set<string>
  {
    set p | p in Merge.FilePatterns :: MergeCwd + p.0
  }

  /** The files the scraper writes. */
  function WrittenPaths(): set<string>
  {
    set s | s in Scraper.Sources :: Scraper.ArtifactPath(s.0)
  }

  // Merge pattern `i` names the artifact of scraper entry [1, 3, 0, 2][i].

  /** Joining the merge directory and a pattern spells out a category's artifact path. */
  lemma JoinSpellsArtifact(category: string)
    ensures "web_scraping_llms/" + ("json_events/" + category + ".json")
         == "web_scraping_llms/json_events/" + category + ".json"
  {
  }

  lemma ActividadesPath()
    ensures MergeCwd + Merge.FilePatterns[0].0 == Scraper.ArtifactPath(Scraper.Sources[1].0)
  {
    assert Merge.FilePatterns[0].0 == "json_events/actividades.json";
    assert "json_events/actividades.json" == "json_events/" + "actividades" + ".json";
    JoinSpellsArtifact("actividades");
  }

  lemma ConferenciasPath()
    ensures MergeCwd + Merge.FilePatterns[1].0 == Scraper.ArtifactPath(Scraper.Sources[3].0)
  {
    assert Merge.FilePatterns[1].0 == "json_events/conferencias.json";
    assert "json_events/conferencias.json" == "json_events/" + "conferencias" + ".json";
    JoinSpellsArtifact("conferencias");
  }

  lemma ExposicionesPath()
    ensures MergeCwd + Merge.FilePatterns[2].0 == Scraper.ArtifactPath(Scraper.Sources[0].0)
  {
    assert Merge.FilePatterns[2].0 == "json_events/exposiciones.json";
    assert "json_events/exposiciones.json" == "json_events/" + "exposiciones" + ".json";
    JoinSpellsArtifact("exposiciones");
  }

  lemma PlanetarioPath()
    ensures MergeCwd + Merge.FilePatterns[3].0 == Scraper.ArtifactPath(Scraper.Sources[2].0)
  {
    assert Merge.FilePatterns[3].0 == "json_events/planetario.json";
    assert "json_events/planetario.json" == "json_events/" + "planetario" + ".json";
    JoinSpellsArtifact("planetario");
  }

  lemma PatternPaths()
    ensures MergeCwd + Merge.FilePatterns[0].0 == Scraper.ArtifactPath(Scraper.Sources[1].0)
    ensures MergeCwd + Merge.FilePatterns[1].0 == Scraper.ArtifactPath(Scraper.Sources[3].0)
    ensures MergeCwd + Merge.FilePatterns[2].0 == Scraper.ArtifactPath(Scraper.Sources[0].0)
    ensures MergeCwd + Merge.FilePatterns[3].0 == Scraper.ArtifactPath(Scraper.Sources[2].0)
  {
    ActividadesPath();
    ConferenciasPath();
    ExposicionesPath();
    PlanetarioPath();
  }

  lemma MergedPathsOfFour(ps: seq<(string, string)>, cwd: string)
    requires |ps| == 4
    ensures (set p | p in ps :: cwd + p.0) ==
      {cwd + ps[0].0, cwd + ps[1].0, cwd + ps[2].0, cwd + ps[3].0}
  {
    assert ps[0] in ps && ps[1] in ps && ps[2] in ps && ps[3] in ps;
    forall p | p in ps
      ensures cwd + p.0 in {cwd + ps[0].0, cwd + ps[1].0, cwd + ps[2].0, cwd + ps[3].0}
    {
      assert ps == [ps[0], ps[1], ps[2], ps[3]];
      assert p == ps[0] || p == ps[1] || p == ps[2] || p == ps[3];
    }
  }

  lemma WrittenPathsOfFour(ss: seq<(string, (string, string))>, path: string -> string)
    requires |ss| == 4
    ensures (set s | s in ss :: path(s.0)) ==
      {path(ss[0].0), path(ss[1].0), path(ss[2].0), path(ss[3].0)}
  {
    assert ss[0] in ss && ss[1] in ss && ss[2] in ss && ss[3] in ss;
    forall s | s in ss
      ensures path(s.0) in {path(ss[0].0), path(ss[1].0), path(ss[2].0), path(ss[3].0)}
    {
      assert ss == [ss[0], ss[1], ss[2], ss[3]];
      assert s == ss[0] || s == ss[1] || s == ss[2] || s == ss[3];
    }
  }

  /** The merge reads every artifact the scraper writes, and nothing else. */
  lemma MergeReadsScraperArtifacts()
    ensures MergedPaths() == WrittenPaths()
    ensures |Merge.FilePatterns| == |Scraper.Sources|
  {
    PatternPaths();
    MergedPathsOfFour(Merge.FilePatterns, MergeCwd);
    WrittenPathsOfFour(Scraper.Sources, Scraper.ArtifactPath);
  }

  /** A merged record still reads back as the event the scraper saved. */
  lemma MergedRecordDecodes(e: Event, tag: string, iso: Timestamp -> string, parse: string -> Option<Timestamp>)
    requires IsoRoundTrips(iso, parse)
    ensures DecodeEvent(Merge.Stamp(EncodeEvent(e, iso), tag), parse) == Some(e)
  {
    EncodeDecodeRoundTrip(e, iso, parse);
    DecodeIgnoresOtherKeys(EncodeEvent(e, iso), Merge.SourceKey, Str(tag), parse);
  }

  /**
   * Scraping then merging: the block of merge pattern `i`, which reads the
   * artifact of scraper entry `j`, holds that job's saved events, encoded and
   * tagged, in extraction order; a failed job leaves the previous file's
   * records, and no file at all gives no records.
   */
  lemma ScrapeThenMerge(caps: Scraper.Capabilities, store: Scraper.Store, i: nat, j: nat)
    requires i < |Merge.FilePatterns| && j < |Scraper.Sources|
    requires MergeCwd + Merge.FilePatterns[i].0 == Scraper.ArtifactPath(Scraper.Sources[j].0)
    ensures var run := Scraper.StartRequests(caps, store);
      var patterns := Merge.Resolve(run.store, MergeCwd, Merge.FilePatterns);
      var start := Merge.PatternOffset(patterns, i);
      var out := Merge.MergeFiles(run.store, MergeCwd);
      var tag := Merge.FilePatterns[i].1;
      var path := Scraper.ArtifactPath(Scraper.Sources[j].0);
      |run.outcomes| == |Scraper.Sources| &&
      start + Merge.RecordCount(patterns[i]) <= |out| &&
      var block := out[start..start + Merge.RecordCount(patterns[i])];
      (run.outcomes[j].Saved? ==> block == Merge.StampFile(EncodeEvents(run.outcomes[j].events, caps.iso), tag)) &&
      (!run.outcomes[j].Saved? && path in store ==> block == Merge.StampFile(store[path], tag)) &&
      (!run.outcomes[j].Saved? && path !in store ==> block == [])
  {
    Scraper.StartRequestsArtifact(caps, store, j);
    var run := Scraper.StartRequests(caps, store);
    Merge.ResolvedBlock(run.store, MergeCwd, Merge.FilePatterns, i);
  }

}
