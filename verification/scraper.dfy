/**
 * The per-category job of cosmocaixa_scraper.py: fetch the listing page,
 * locate the category's section, ask the extraction chain for the events
 * and overwrite the category's JSON artifact. Each job is modelled
 * sequentially; the thread pool's only effect is which order the jobs run
 * in, and `JobsCommute` shows that order does not matter.
 */
module Scraper {
  import opened Wrappers
  import opened Json
  import opened Html
  import opened Events

  /** The category → (listing page, section id) table of `start_requests`, in dict order. */
  const Sources: seq<(string, (string, string))> := [
    ("exposiciones", ("https://cosmocaixa.org/es/exposiciones-ciencia-barcelona",
                      "portlet_listactivities_INSTANCE_u3YZVHkpD017")),
    ("actividades", ("https://cosmocaixa.org/es/actividades-cosmocaixa-ciencia",
                     "portlet_listactivities_INSTANCE_Q4EA43110XIZ")),
    ("planetario", ("https://cosmocaixa.org/es/planetario",
                    "portlet_listactivities_INSTANCE_n4imOHR5Ia1i")),
    ("conferencias", ("https://cosmocaixa.org/es/conferencias",
                      "portlet_listactivities_INSTANCE_WvGPDs7XuZX8"))
  ]

  /** The table has four entries with pairwise distinct categories, URLs and section ids. */
  lemma SourceTableDistinct()
    ensures |Sources| == 4
    ensures forall i, j :: 0 <= i < j < |Sources| ==>
      Sources[i].0 != Sources[j].0 && Sources[i].1.0 != Sources[j].1.0 && Sources[i].1.1 != Sources[j].1.1
  {
  }

  /** What the scraping service answered: a status code and the parsed body. */
  datatype Response = Response(status: int, page: Page)

  /** `requests.get`, which either raises or answers. */
  datatype Fetch = TransportError | Responded(response: Response)

  /**
   * The external capabilities a job uses: the HTTP fetch, the prompt → LLM →
   * output-parser chain (`None` when `chain.invoke` raises, in any of its steps),
   * and `datetime.isoformat`.
   */
  datatype Capabilities = Capabilities(
    fetch: string -> Fetch,
    extract: string -> Option<seq<Event>>,
    iso: Timestamp -> string)

  /** The exceptions `parse` does not catch. */
  datatype Failure = TransportFailure | ExtractionFailure

  /**
   * How one job ends: the three printed outcomes, or an exception that
   * leaves `parse` (the pool stores it in a future nobody reads).
   */
  datatype Outcome =
    | FetchFailed(status: int)
    | SectionNotFound
    | Saved(events: seq<Event>)
    | Raised(failure: Failure)

  /** The files the jobs write, by path, each holding a JSON array of objects. */
  type Store = map<string, seq<Record>>

  datatype Job = Job(outcome: Outcome, store: Store)

  const OutputDir := "web_scraping_llms/json_events/"

  /** The artifact a category's job overwrites. */
  function ArtifactPath(category: string): string
  {
    OutputDir + category + ".json"
  }

  /** Different categories never share an artifact. */
  lemma ArtifactPathInjective(a: string, b: string)
    requires ArtifactPath(a) == ArtifactPath(b)
    ensures a == b
  {
    var n := |OutputDir|;
    assert ArtifactPath(a)[n..|ArtifactPath(a)| - 5] == a;
    assert ArtifactPath(b)[n..|ArtifactPath(b)| - 5] == b;
  }

  /** The section the job hands to the chain, if the page has one with that id. */
  function Locate(r: Response, sectionId: string): (section: Option<Element>)
    ensures section.Some? <==> sectionId in r.page
    ensures section.Some? ==> section.value == r.page[sectionId]
  {
    FindById(r.page, sectionId)
  }

  /**
   * `parse(url, type, section_id)`: only a 200 answer whose page has the
   * section reaches the chain, and only a successful chain writes, replacing
   * the category's whole artifact.
   */
  function Parse(caps: Capabilities, url: string, category: string, sectionId: string, store: Store)
    : (job: Job)
    ensures job.outcome.Raised? && job.outcome.failure.TransportFailure? <==> caps.fetch(url).TransportError?
    ensures job.outcome.FetchFailed? <==>
      caps.fetch(url).Responded? && caps.fetch(url).response.status != 200
    ensures job.outcome.FetchFailed? ==> job.outcome.status == caps.fetch(url).response.status
    ensures job.outcome.SectionNotFound? <==>
      caps.fetch(url).Responded? && caps.fetch(url).response.status == 200
      && sectionId !in caps.fetch(url).response.page
    ensures job.outcome.Saved? <==>
      caps.fetch(url).Responded? && caps.fetch(url).response.status == 200
      && sectionId in caps.fetch(url).response.page
      && caps.extract(caps.fetch(url).response.page[sectionId].markup).Some?
    ensures job.outcome.Saved? ==>
      job.outcome.events == caps.extract(caps.fetch(url).response.page[sectionId].markup).value
    ensures !job.outcome.Saved? ==> job.store == store
    ensures job.outcome.Saved? ==>
      job.store == store[ArtifactPath(category) := EncodeEvents(job.outcome.events, caps.iso)]
  {
    match caps.fetch(url)
    case TransportError => Job(Raised(TransportFailure), store)
    case Responded(response) =>
      if response.status != 200 then Job(FetchFailed(response.status), store)
      else
        match Locate(response, sectionId)
        case None => Job(SectionNotFound, store)
        case Some(section) =>
          match caps.extract(section.markup)
          case None => Job(Raised(ExtractionFailure), store)
          case Some(events) =>
            Job(Saved(events), store[ArtifactPath(category) := EncodeEvents(events, caps.iso)])
  }

  /** A job touches no file but its own category's artifact. */
  lemma ParseTouchesOnlyItsArtifact(
    caps: Capabilities, url: string, category: string, sectionId: string, store: Store, path: string)
    requires path != ArtifactPath(category)
    ensures path in Parse(caps, url, category, sectionId, store).store <==> path in store
    ensures path in store ==> Parse(caps, url, category, sectionId, store).store[path] == store[path]
  {
  }

  /**
   * Failing before the section is found consults neither the chain nor the
   * store: any other extractor and any other previous files give the same
   * outcome, and no file changes.
   */
  lemma FailureSkipsExtraction(
    caps: Capabilities, extract': string -> Option<seq<Event>>,
    url: string, category: string, sectionId: string, store: Store)
    requires caps.fetch(url).Responded? ==>
      caps.fetch(url).response.status != 200 || sectionId !in caps.fetch(url).response.page
    ensures Parse(caps, url, category, sectionId, store) ==
      Parse(caps.(extract := extract'), url, category, sectionId, store)
    ensures Parse(caps, url, category, sectionId, store).store == store
    ensures !Parse(caps, url, category, sectionId, store).outcome.Saved?
  {
  }

  /** `parse_wrapper`: the dict key is the category, the pair is (url, section id). */
  function ParseWrapper(caps: Capabilities, item: (string, (string, string)), store: Store): (job: Job)
    ensures job == Parse(caps, item.1.0, item.0, item.1.1, store)
    ensures forall p :: p != ArtifactPath(item.0) ==>
      (p in job.store <==> p in store) && (p in store ==> job.store[p] == store[p])
  {
    var (category, source) := item;
    var (url, sectionId) := source;
    Parse(caps, url, category, sectionId, store)
  }

  /** A job's outcome depends on its own inputs only, never on the files already there. */
  lemma OutcomeIgnoresStore(caps: Capabilities, item: (string, (string, string)), s1: Store, s2: Store)
    ensures ParseWrapper(caps, item, s1).outcome == ParseWrapper(caps, item, s2).outcome
  {
  }

  /**
   * Two jobs for different categories can run in either order: they end with
   * the same files. This is what lets `start_requests` run them concurrently.
   */
  lemma JobsCommute(caps: Capabilities, a: (string, (string, string)), b: (string, (string, string)), store: Store)
    requires a.0 != b.0
    ensures ParseWrapper(caps, b, ParseWrapper(caps, a, store).store).store ==
            ParseWrapper(caps, a, ParseWrapper(caps, b, store).store).store
  {
    if ArtifactPath(a.0) == ArtifactPath(b.0) {
      ArtifactPathInjective(a.0, b.0);
    }
  }

  datatype Run = Run(outcomes: seq<Outcome>, store: Store)

  /** The jobs of `items`, one after the other, each seeing the files the previous ones left. */
  function RunJobs(caps: Capabilities, items: seq<(string, (string, string))>, store: Store): (run: Run)
    ensures |run.outcomes| == |items|
    ensures store.Keys <= run.store.Keys
    decreases |items|
  {
    if |items| == 0 then Run([], store)
    else
      var prev := RunJobs(caps, items[..|items| - 1], store);
      var job := ParseWrapper(caps, items[|items| - 1], prev.store);
      Run(prev.outcomes + [job.outcome], job.store)
  }

  /** `start_requests`: one job per entry of the source table. */
  function StartRequests(caps: Capabilities, store: Store): (run: Run)
    ensures |run.outcomes| == |Sources|
    ensures store.Keys <= run.store.Keys
  {
    RunJobs(caps, Sources, store)
  }

  predicate DistinctCategories(items: seq<(string, (string, string))>)
  {
    forall i, j :: 0 <= i < j < |items| ==> items[i].0 != items[j].0
  }

  /**
   * Isolation: every job ends exactly as it would have run alone, so one
   * job's failure neither stops nor changes the others.
   */
  lemma {:induction false} RunJobsOutcomes(caps: Capabilities, items: seq<(string, (string, string))>, store: Store)
    ensures |RunJobs(caps, items, store).outcomes| == |items|
    ensures forall i :: 0 <= i < |items| ==>
      RunJobs(caps, items, store).outcomes[i] == ParseWrapper(caps, items[i], store).outcome
    decreases |items|
  {
    if |items| != 0 {
      var n := |items|;
      RunJobsOutcomes(caps, items[..n - 1], store);
      var prev := RunJobs(caps, items[..n - 1], store);
      OutcomeIgnoresStore(caps, items[n - 1], prev.store, store);
      forall i | 0 <= i < n - 1
        ensures RunJobs(caps, items, store).outcomes[i] == ParseWrapper(caps, items[i], store).outcome
      {
        assert items[..n - 1][i] == items[i];
      }
    }
  }

  /**
   * After all jobs, the artifact of each category holds the events its job
   * saved, or whatever it held before when that job failed.
   */
  lemma {:induction false} RunJobsArtifact(
    caps: Capabilities, items: seq<(string, (string, string))>, store: Store, i: nat)
    requires DistinctCategories(items)
    requires i < |items|
    ensures var path := ArtifactPath(items[i].0);
      var outcome := ParseWrapper(caps, items[i], store).outcome;
      var after := RunJobs(caps, items, store).store;
      if outcome.Saved? then path in after && after[path] == EncodeEvents(outcome.events, caps.iso)
      else (path in after <==> path in store) && (path in store ==> after[path] == store[path])
    decreases |items|
  {
    var n := |items|;
    var prev := RunJobs(caps, items[..n - 1], store);
    OutcomeIgnoresStore(caps, items[i], prev.store, store);
    if i < n - 1 {
      assert items[..n - 1][i] == items[i];
      RunJobsArtifact(caps, items[..n - 1], store, i);
      if ArtifactPath(items[i].0) == ArtifactPath(items[n - 1].0) {
        ArtifactPathInjective(items[i].0, items[n - 1].0);
      }
    } else {
      var prefix := items[..n - 1];
      forall j | 0 <= j < n - 1
        ensures ArtifactPath(items[i].0) != ArtifactPath(prefix[j].0)
      {
        if ArtifactPath(items[i].0) == ArtifactPath(items[j].0) {
          ArtifactPathInjective(items[i].0, items[j].0);
        }
      }
      RunJobsOther(caps, prefix, store, ArtifactPath(items[i].0));
    }
  }

  /**
   * After `start_requests`, each category's artifact holds what its job
   * saved, encoded, or what it held before when the job saved nothing.
   */
  lemma StartRequestsArtifact(caps: Capabilities, store: Store, j: nat)
    requires j < |Sources|
    ensures var run := StartRequests(caps, store);
      var path := ArtifactPath(Sources[j].0);
      |run.outcomes| == |Sources| &&
      (run.outcomes[j].Saved? ==>
        path in run.store && run.store[path] == EncodeEvents(run.outcomes[j].events, caps.iso)) &&
      (!run.outcomes[j].Saved? ==>
        (path in run.store <==> path in store) && (path in store ==> run.store[path] == store[path]))
  {
    SourceTableDistinct();
    RunJobsOutcomes(caps, Sources, store);
    RunJobsArtifact(caps, Sources, store, j);
  }

  /** Files that are no job's artifact are left as they were. */
  lemma {:induction false} RunJobsOther(
    caps: Capabilities, items: seq<(string, (string, string))>, store: Store, path: string)
    requires forall i :: 0 <= i < |items| ==> path != ArtifactPath(items[i].0)
    ensures path in RunJobs(caps, items, store).store <==> path in store
    ensures path in store ==> RunJobs(caps, items, store).store[path] == store[path]
    decreases |items|
  {
    if |items| != 0 {
      RunJobsOther(caps, items[..|items| - 1], store, path);
    }
  }

  /** The only files the jobs create are their categories' artifacts. */
  lemma {:induction false} RunJobsCreates(caps: Capabilities, items: seq<(string, (string, string))>, store: Store, path: string)
    requires path in RunJobs(caps, items, store).store && path !in store
    ensures exists i :: 0 <= i < |items| && path == ArtifactPath(items[i].0)
  {
    if forall i :: 0 <= i < |items| ==> path != ArtifactPath(items[i].0) {
      RunJobsOther(caps, items, store, path);
    }
  }
}
