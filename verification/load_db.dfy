/** The ingestion script: create the vector collection (tolerating one that
    already exists), then scrape a fixed list of news pages, split each page
    into chunks, embed each chunk and insert it with its text. A failure is
    isolated to the page or the chunk it happened in. The scraper, splitter,
    embedder and store are oracles. */
module LoadDb {
  import opened Common
  import opened JsString

  /** The collection's similarity metric. */
  datatype Metric = DotProduct | Cosine | Euclidean

  /** A stored document: the embedding (by its length; absent when the
      embedder's response held no vector) and the chunk's text. */
  datatype Record = Record(vector: Option<nat>, text: string)

  /** The calls the script makes to the outside world, in order. */
  datatype Call =
    | CreateCall(name: string, dimension: nat, metric: Metric)
    | ScrapeCall(url: string)
    | SplitCall(content: string)
    | EmbedCall(model: string, chunk: string)
    | InsertCall(record: Record)

  /** What the outside world answers: the page text of a URL, the chunks of
      a text, the embedding of a chunk, and whether an insert succeeded. */
  datatype Services = Services(
    scrape: string -> Attempt<string>,
    split: string -> Attempt<seq<string>>,
    embed: string -> Attempt<Option<nat>>,
    insert: Record -> Attempt<()>)

  /** The calls made and the records that reached the store. */
  datatype Effects = Effects(calls: seq<Call>, stored: seq<Record>) {
    /** These effects followed by `next`. */
    function Then(next: Effects): Effects {
      Effects(calls + next.calls, stored + next.stored)
    }
  }

  const NoEffects: Effects := Effects([], [])

  const Dimension: nat := 768
  const EmbeddingModel: string := "embedding-001"
  const AlreadyExists: string := "already exists"

  /** The pages the script loads, in order. */
  const News: seq<string> := [
    "https://en.wikipedia.org/wiki/Portal:Current_events",
    "https://www.bbc.com/news/world",
    "https://www.ndtv.com/world-news",
    "https://indianexpress.com/section/world/",
    "https://edition.cnn.com/",
    "https://indianexpress.com/",
    "https://www.ndtv.com/",
    "https://www.indiatoday.in/"
  ]

  /** An error reporting that the collection is already there. */
  predicate IsAlreadyExists(e: Thrown) {
    e.ErrorObj? && Includes(e.message, AlreadyExists)
  }

  /** `createCollection`: asks the store for a collection of 768-dimensional
      vectors under `metric` (dot product unless told otherwise). The store's
      answer `outcome` counts as success when it is a success or an error
      whose message mentions that the collection already exists; any other
      thrown value is rethrown unchanged. */
  function CreateCollection(name: string, outcome: Attempt<()>, metric: Metric := DotProduct): (r: (Call, Attempt<()>))
    ensures r.0 == CreateCall(name, Dimension, metric)
    ensures r.1.Done? <==> outcome.Done? || IsAlreadyExists(outcome.error)
    ensures r.1.Threw? ==> r.1 == outcome
  {
    var call := CreateCall(name, Dimension, metric);
    match outcome
    case Done(_) => (call, Done(()))
    case Threw(e) =>
      if e.ErrorObj? && Includes(e.message, AlreadyExists) then (call, Done(()))
      else (call, Threw(e))
  }

  /** A message that merely contains the phrase among other text still counts
      as success. */
  lemma AlreadyExistsAnywhere(name: string, pre: string, post: string)
    ensures CreateCollection(name, Threw(ErrorObj("Error", pre + AlreadyExists + post))).1 == Done(())
  {
    var m := pre + AlreadyExists + post;
    assert m[|pre|..|pre| + |AlreadyExists|] == AlreadyExists;
    assert OccursAt(m, AlreadyExists, |pre|);
  }

  /** One chunk: embed it; when the embedder answered, insert the record
      with whatever vector came back, checked or not. A failed embed or
      insert is swallowed. */
  function ChunkEffects(svc: Services, chunk: string): Effects {
    var embed := EmbedCall(EmbeddingModel, chunk);
    match svc.embed(chunk)
    case Threw(_) => Effects([embed], [])
    case Done(vector) =>
      var record := Record(vector, chunk);
      Effects([embed, InsertCall(record)], if svc.insert(record).Done? then [record] else [])
  }

  /** The chunks of one page, in order. */
  function ChunksEffects(svc: Services, chunks: seq<string>): Effects
    decreases |chunks|
  {
    if chunks == [] then NoEffects
    else ChunkEffects(svc, chunks[0]).Then(ChunksEffects(svc, chunks[1..]))
  }

  /** One page: scrape it and split the text; a failure of either ends this
      page's work. */
  function UrlEffects(svc: Services, url: string): Effects {
    var scrape := Effects([ScrapeCall(url)], []);
    match svc.scrape(url)
    case Threw(_) => scrape
    case Done(content) =>
      var split := scrape.Then(Effects([SplitCall(content)], []));
      match svc.split(content)
      case Threw(_) => split
      case Done(chunks) => split.Then(ChunksEffects(svc, chunks))
  }

  /** `loadSampledata` as a definition: the pages, in order. */
  function LoadEffects(svc: Services, urls: seq<string>): Effects
    decreases |urls|
  {
    if urls == [] then NoEffects
    else UrlEffects(svc, urls[0]).Then(LoadEffects(svc, urls[1..]))
  }

  lemma ThenAssociative(a: Effects, b: Effects, c: Effects)
    ensures a.Then(b).Then(c) == a.Then(b.Then(c))
  {
  }

  /** The chunks of a longer list: those of the first part, then the rest. */
  lemma {:induction false} ChunksAppend(svc: Services, xs: seq<string>, ys: seq<string>)
    ensures ChunksEffects(svc, xs + ys) == ChunksEffects(svc, xs).Then(ChunksEffects(svc, ys))
    decreases |xs|
  {
    if xs == [] {
      assert xs + ys == ys;
      assert NoEffects.Then(ChunksEffects(svc, ys)) == ChunksEffects(svc, ys);
    } else {
      assert (xs + ys)[1..] == xs[1..] + ys;
      ChunksAppend(svc, xs[1..], ys);
      ThenAssociative(ChunkEffects(svc, xs[0]), ChunksEffects(svc, xs[1..]), ChunksEffects(svc, ys));
    }
  }

  /** The pages of a longer list: those of the first part, then the rest. */
  lemma {:induction false} LoadAppend(svc: Services, xs: seq<string>, ys: seq<string>)
    ensures LoadEffects(svc, xs + ys) == LoadEffects(svc, xs).Then(LoadEffects(svc, ys))
    decreases |xs|
  {
    if xs == [] {
      assert xs + ys == ys;
      assert NoEffects.Then(LoadEffects(svc, ys)) == LoadEffects(svc, ys);
    } else {
      assert (xs + ys)[1..] == xs[1..] + ys;
      LoadAppend(svc, xs[1..], ys);
      ThenAssociative(UrlEffects(svc, xs[0]), LoadEffects(svc, xs[1..]), LoadEffects(svc, ys));
    }
  }

  lemma ChunksOne(svc: Services, chunk: string)
    ensures ChunksEffects(svc, [chunk]) == ChunkEffects(svc, chunk)
  {
  }

  lemma LoadOne(svc: Services, url: string)
    ensures LoadEffects(svc, [url]) == UrlEffects(svc, url)
  {
  }

  /** `loadSampledata`'s nested loops: every page in order, every chunk of a
      page in order, a failure caught where it happens. The calls and the
      stored records are those of the definition above. */
  method LoadSampleData(svc: Services, urls: seq<string>) returns (calls: seq<Call>, stored: seq<Record>)
    ensures Effects(calls, stored) == LoadEffects(svc, urls)
  {
    calls, stored := [], [];
    var i := 0;
    while i < |urls|
      invariant 0 <= i <= |urls|
      invariant Effects(calls, stored) == LoadEffects(svc, urls[..i])
    {
      var url := urls[i];
      var pageCalls, pageStored := LoadPage(svc, url);
      assert urls[..i + 1] == urls[..i] + [url];
      LoadAppend(svc, urls[..i], [url]);
      LoadOne(svc, url);
      calls, stored := calls + pageCalls, stored + pageStored;
      i := i + 1;
    }
    assert urls[..i] == urls;
  }

  /** The body of the outer loop: one page, with the inner loop over its
      chunks. */
  method LoadPage(svc: Services, url: string) returns (calls: seq<Call>, stored: seq<Record>)
    ensures Effects(calls, stored) == UrlEffects(svc, url)
  {
    calls, stored := [ScrapeCall(url)], [];
    var scraped := svc.scrape(url);
    if scraped.Threw? {
      return;
    }
    var content := scraped.value;
    calls := calls + [SplitCall(content)];
    var split := svc.split(content);
    if split.Threw? {
      return;
    }
    var chunks := split.value;
    var head := Effects(calls, stored);
    var j := 0;
    while j < |chunks|
      invariant 0 <= j <= |chunks|
      invariant Effects(calls, stored) == head.Then(ChunksEffects(svc, chunks[..j]))
    {
      var chunk := chunks[j];
      var chunkCalls, chunkStored := LoadChunk(svc, chunk);
      assert chunks[..j + 1] == chunks[..j] + [chunk];
      ChunksAppend(svc, chunks[..j], [chunk]);
      ChunksOne(svc, chunk);
      ThenAssociative(head, ChunksEffects(svc, chunks[..j]), ChunkEffects(svc, chunk));
      calls, stored := calls + chunkCalls, stored + chunkStored;
      j := j + 1;
    }
    assert chunks[..j] == chunks;
  }

  /** The body of the inner loop: one chunk. */
  method LoadChunk(svc: Services, chunk: string) returns (calls: seq<Call>, stored: seq<Record>)
    ensures Effects(calls, stored) == ChunkEffects(svc, chunk)
    ensures calls[0] == EmbedCall(EmbeddingModel, chunk)
    ensures svc.embed(chunk).Done? <==> |calls| == 2
    ensures |calls| == 2 ==> calls[1] == InsertCall(Record(svc.embed(chunk).value, chunk))
    ensures stored != [] <==> svc.embed(chunk).Done? && svc.insert(Record(svc.embed(chunk).value, chunk)).Done?
  {
    calls, stored := [EmbedCall(EmbeddingModel, chunk)], [];
    var embedded := svc.embed(chunk);
    if embedded.Threw? {
      return;
    }
    var record := Record(embedded.value, chunk);
    calls := calls + [InsertCall(record)];
    if svc.insert(record).Done? {
      stored := [record];
    }
  }

  /** The pages a trace scraped, in order. */
  function Scraped(calls: seq<Call>): seq<string>
    decreases |calls|
  {
    if calls == [] then []
    else (if calls[0].ScrapeCall? then [calls[0].url] else []) + Scraped(calls[1..])
  }

  /** The chunks a trace embedded, in order. */
  function Embedded(calls: seq<Call>): seq<string>
    decreases |calls|
  {
    if calls == [] then []
    else (if calls[0].EmbedCall? then [calls[0].chunk] else []) + Embedded(calls[1..])
  }

  lemma {:induction false} ScrapedAppend(xs: seq<Call>, ys: seq<Call>)
    ensures Scraped(xs + ys) == Scraped(xs) + Scraped(ys)
    decreases |xs|
  {
    if xs == [] {
      assert xs + ys == ys;
    } else {
      var head := if xs[0].ScrapeCall? then [xs[0].url] else [];
      assert (xs + ys)[0] == xs[0];
      assert (xs + ys)[1..] == xs[1..] + ys;
      assert Scraped(xs + ys) == head + Scraped(xs[1..] + ys);
      ScrapedAppend(xs[1..], ys);
      assert head + (Scraped(xs[1..]) + Scraped(ys)) == (head + Scraped(xs[1..])) + Scraped(ys);
    }
  }

  lemma {:induction false} EmbeddedAppend(xs: seq<Call>, ys: seq<Call>)
    ensures Embedded(xs + ys) == Embedded(xs) + Embedded(ys)
    decreases |xs|
  {
    if xs == [] {
      assert xs + ys == ys;
    } else {
      var head := if xs[0].EmbedCall? then [xs[0].chunk] else [];
      assert (xs + ys)[0] == xs[0];
      assert (xs + ys)[1..] == xs[1..] + ys;
      assert Embedded(xs + ys) == head + Embedded(xs[1..] + ys);
      EmbeddedAppend(xs[1..], ys);
      assert head + (Embedded(xs[1..]) + Embedded(ys)) == (head + Embedded(xs[1..])) + Embedded(ys);
    }
  }

  /** No chunk call scrapes. */
  lemma {:induction false} ChunksScrapeNothing(svc: Services, chunks: seq<string>)
    ensures Scraped(ChunksEffects(svc, chunks).calls) == []
    decreases |chunks|
  {
    if chunks != [] {
      var first := ChunkEffects(svc, chunks[0]).calls;
      ScrapedAppend(first, ChunksEffects(svc, chunks[1..]).calls);
      ChunksScrapeNothing(svc, chunks[1..]);
      assert first[1..] == [] || first[1..] == [first[1]];
    }
  }

  /** A page's work scrapes that page and nothing else. */
  lemma UrlScrapesItself(svc: Services, url: string)
    ensures Scraped(UrlEffects(svc, url).calls) == [url]
  {
    var page := UrlEffects(svc, url).calls;
    if svc.scrape(url).Done? {
      var content := svc.scrape(url).value;
      if svc.split(content).Done? {
        var chunks := ChunksEffects(svc, svc.split(content).value).calls;
        ChunksScrapeNothing(svc, svc.split(content).value);
        ScrapedAppend([ScrapeCall(url), SplitCall(content)], chunks);
        assert Scraped([SplitCall(content)]) == [];
      } else {
        assert page[1..] == [SplitCall(content)];
      }
    }
  }

  /** Failures stay with their page: every page of the list is scraped, in
      the list's order, whatever happened to the pages before it. */
  lemma {:induction false} EveryPageScraped(svc: Services, urls: seq<string>)
    ensures Scraped(LoadEffects(svc, urls).calls) == urls
    decreases |urls|
  {
    if urls != [] {
      UrlScrapesItself(svc, urls[0]);
      ScrapedAppend(UrlEffects(svc, urls[0]).calls, LoadEffects(svc, urls[1..]).calls);
      EveryPageScraped(svc, urls[1..]);
    }
  }

  /** Failures stay with their chunk: every chunk of a page is embedded, in
      order, whatever happened to the chunks before it. */
  lemma {:induction false} EveryChunkEmbedded(svc: Services, chunks: seq<string>)
    ensures Embedded(ChunksEffects(svc, chunks).calls) == chunks
    decreases |chunks|
  {
    if chunks != [] {
      var first := ChunkEffects(svc, chunks[0]).calls;
      EmbeddedAppend(first, ChunksEffects(svc, chunks[1..]).calls);
      EveryChunkEmbedded(svc, chunks[1..]);
      assert Embedded(first) == [chunks[0]] by {
        if |first| == 2 {
          assert first[1..] == [first[1]];
          assert first[1..][1..] == [];
        }
      }
    }
  }

  /** A page that was scraped and split has each of its chunks embedded, in
      order, after the scrape and split calls. */
  lemma PageChunksEmbedded(svc: Services, url: string, content: string, chunks: seq<string>)
    requires svc.scrape(url) == Done(content) && svc.split(content) == Done(chunks)
    ensures Embedded(UrlEffects(svc, url).calls) == chunks
  {
    EveryChunkEmbedded(svc, chunks);
    EmbeddedAppend([ScrapeCall(url), SplitCall(content)], ChunksEffects(svc, chunks).calls);
    assert Embedded([SplitCall(content)]) == [];
  }

  /** A page whose scrape or split failed stores nothing and embeds nothing. */
  lemma FailedPageContributesNothing(svc: Services, url: string)
    requires svc.scrape(url).Threw? || svc.split(svc.scrape(url).value).Threw?
    ensures UrlEffects(svc, url).stored == []
    ensures Embedded(UrlEffects(svc, url).calls) == []
  {
    if svc.scrape(url).Done? {
      var content := svc.scrape(url).value;
      assert UrlEffects(svc, url).calls == [ScrapeCall(url)] + [SplitCall(content)];
      EmbeddedAppend([ScrapeCall(url)], [SplitCall(content)]);
      assert [SplitCall(content)][1..] == [];
    }
    assert [ScrapeCall(url)][1..] == [];
  }

  /** The chunks that reach the store: embedded, and their insert accepted. */
  predicate Kept(svc: Services, chunk: string) {
    svc.embed(chunk).Done? && svc.insert(Record(svc.embed(chunk).value, chunk)).Done?
  }

  /** The chunks of `chunks` that reach the store, in order. */
  function KeptChunks(svc: Services, chunks: seq<string>): seq<string>
    decreases |chunks|
  {
    if chunks == [] then []
    else (if Kept(svc, chunks[0]) then [chunks[0]] else []) + KeptChunks(svc, chunks[1..])
  }

  function Texts(records: seq<Record>): seq<string>
    decreases |records|
  {
    if records == [] then [] else [records[0].text] + Texts(records[1..])
  }

  lemma {:induction false} TextsAppend(xs: seq<Record>, ys: seq<Record>)
    ensures Texts(xs + ys) == Texts(xs) + Texts(ys)
    decreases |xs|
  {
    if xs == [] {
      assert xs + ys == ys;
    } else {
      assert (xs + ys)[1..] == xs[1..] + ys;
      TextsAppend(xs[1..], ys);
    }
  }

  /** What a page stores is its kept chunks, in chunk order, each record's
      text being the chunk exactly and its vector the embedder's answer,
      absent or not. */
  lemma {:induction false} StoredAreKeptChunks(svc: Services, chunks: seq<string>)
    ensures Texts(ChunksEffects(svc, chunks).stored) == KeptChunks(svc, chunks)
    ensures forall k :: 0 <= k < |ChunksEffects(svc, chunks).stored| ==>
              var r := ChunksEffects(svc, chunks).stored[k];
              svc.embed(r.text) == Done(r.vector)
    decreases |chunks|
  {
    if chunks != [] {
      var first := ChunkEffects(svc, chunks[0]).stored;
      var rest := ChunksEffects(svc, chunks[1..]).stored;
      TextsAppend(first, rest);
      StoredAreKeptChunks(svc, chunks[1..]);
      assert Texts(first) == (if Kept(svc, chunks[0]) then [chunks[0]] else []);
      var all := ChunksEffects(svc, chunks).stored;
      assert all == first + rest;
      forall k | 0 <= k < |all|
        ensures svc.embed(all[k].text) == Done(all[k].vector)
      {
        if k >= |first| {
          assert all[k] == rest[k - |first|];
        }
      }
    }
  }

  /** The vector is not checked before the insert: a chunk the embedder
      answered without a vector is still inserted, with an absent vector. */
  lemma AbsentVectorStillInserted(svc: Services, chunk: string)
    requires svc.embed(chunk) == Done(None)
    ensures InsertCall(Record(None, chunk)) in ChunkEffects(svc, chunk).calls
    ensures svc.insert(Record(None, chunk)).Done? ==> ChunkEffects(svc, chunk).stored == [Record(None, chunk)]
  {
  }

  /** The script: create the collection with the default metric, and load
      only after creation has finished; a creation failure other than an
      existing collection ends the script before any page is touched. */
  function Script(svc: Services, name: string, creation: Attempt<()>, urls: seq<string>): (r: (Effects, Attempt<()>))
    ensures r.0.calls != [] && r.0.calls[0] == CreateCall(name, Dimension, DotProduct)
    ensures forall k :: 0 < k < |r.0.calls| ==> !r.0.calls[k].CreateCall?
    ensures r.1 == CreateCollection(name, creation).1
    ensures r.1.Threw? ==> r.0 == Effects([r.0.calls[0]], [])
    ensures r.1.Done? ==> r.0.calls[1..] == LoadEffects(svc, urls).calls && r.0.stored == LoadEffects(svc, urls).stored
  {
    var (call, created) := CreateCollection(name, creation);
    var start := Effects([call], []);
    if created.Threw? then (start, created)
    else
      var loaded := start.Then(LoadEffects(svc, urls));
      NoCreateWhileLoading(svc, urls);
      assert loaded.calls[1..] == LoadEffects(svc, urls).calls;
      (loaded, created)
  }

  /** The script as it runs: once the collection exists, it scrapes exactly
      the news pages, in their listed order, whatever the services answer. */
  lemma SampleRunScrapesNews(svc: Services, name: string, creation: Attempt<()>)
    ensures var r := Script(svc, name, creation, News);
            r.1.Done? ==> |r.0.calls| > 1 && Scraped(r.0.calls[1..]) == News
  {
    EveryPageScraped(svc, News);
  }

  /** Loading never creates a collection. */
  lemma {:induction false} NoCreateWhileLoading(svc: Services, urls: seq<string>)
    ensures forall k :: 0 <= k < |LoadEffects(svc, urls).calls| ==> !LoadEffects(svc, urls).calls[k].CreateCall?
    decreases |urls|
  {
    if urls != [] {
      NoCreateWhileLoading(svc, urls[1..]);
      var page := UrlEffects(svc, urls[0]).calls;
      var rest := LoadEffects(svc, urls[1..]).calls;
      assert forall k :: 0 <= k < |page| ==> !page[k].CreateCall? by {
        PageCreatesNothing(svc, urls[0]);
      }
      assert LoadEffects(svc, urls).calls == page + rest;
    }
  }

  lemma PageCreatesNothing(svc: Services, url: string)
    ensures forall k :: 0 <= k < |UrlEffects(svc, url).calls| ==> !UrlEffects(svc, url).calls[k].CreateCall?
  {
    if svc.scrape(url).Done? && svc.split(svc.scrape(url).value).Done? {
      ChunksCreateNothing(svc, svc.split(svc.scrape(url).value).value);
    }
  }

  lemma {:induction false} ChunksCreateNothing(svc: Services, chunks: seq<string>)
    ensures forall k :: 0 <= k < |ChunksEffects(svc, chunks).calls| ==> !ChunksEffects(svc, chunks).calls[k].CreateCall?
    decreases |chunks|
  {
    if chunks != [] {
      ChunksCreateNothing(svc, chunks[1..]);
    }
  }
}
