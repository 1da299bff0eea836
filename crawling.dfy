/** The crawler of externalLib/crawler.py: a breadth-first frontier over the links that the
    link processor accepts, with fetched pages saved in numbered shards. */
module Crawling {
  import opened Wrappers
  import opened Seqs
  import opened Decimal
  import opened LinkProcessing

  /** One saved page: its link and the body fetched for it. */
  type Entry = (string, string)

  /** A file written by dumpCache: its name and the pages it holds, in insertion order. */
  datatype Shard = Shard(name: string, entries: seq<Entry>)

  /** Pages per shard: the batch is saved as soon as it holds dumpInterval pages,
      which, checked right after an insertion, means one page when dumpInterval < 1. */
  function ShardSize(dumpInterval: int): nat
  {
    if dumpInterval < 1 then 1 else dumpInterval
  }

  /** The most pages a crawl explores: a negative maxExplore stops it at once. */
  function ExploreBound(maxExplore: int): nat
  {
    if maxExplore < 0 then 0 else maxExplore
  }

  /** What one anchor adds to the frontier: nothing when it has no href (or an empty one)
      or when the link processor rejects (or empties) the href, else the final link. */
  function Accepted(domain: string, page: string, href: Option<string>): (r: seq<string>)
    ensures |r| <= 1
    ensures forall l :: l in r ==> domain <= l && '?' !in l && l != []
  {
    if href.None? || href.value == [] then []
    else
      match GetFinalLink(domain, href.value, page)
      case None => []
      case Some(link) => if link == [] then [] else [link]
  }

  /** The links that the anchors of a page add to the frontier, in anchor order. */
  function Discovered(domain: string, page: string, hrefs: seq<Option<string>>): (r: seq<string>)
    ensures |r| <= |hrefs|
  {
    if hrefs == [] then []
    else Discovered(domain, page, hrefs[..|hrefs| - 1]) + Accepted(domain, page, hrefs[|hrefs| - 1])
  }

  lemma {:induction false} DiscoveredSnoc(domain: string, page: string, hrefs: seq<Option<string>>, j: nat)
    requires j < |hrefs|
    ensures Discovered(domain, page, hrefs[..j + 1])
         == Discovered(domain, page, hrefs[..j]) + Accepted(domain, page, hrefs[j])
  {
    assert hrefs[..j + 1][..j] == hrefs[..j];
  }

  /** Everything appended to the frontier while the pages of explored were processed, in order. */
  function Expansion(domain: string, explored: seq<string>, fetch: string -> string,
                     anchors: string -> seq<Option<string>>): seq<string>
  {
    if explored == [] then []
    else
      var page := explored[|explored| - 1];
      Expansion(domain, explored[..|explored| - 1], fetch, anchors)
        + Discovered(domain, page, anchors(fetch(page)))
  }

  /** Every link a page adds is a non-empty, static link of the crawled site. */
  lemma {:induction false} DiscoveredInDomain(domain: string, page: string, hrefs: seq<Option<string>>)
    ensures forall l :: l in Discovered(domain, page, hrefs) ==> domain <= l && '?' !in l && l != []
  {
    if hrefs != [] {
      DiscoveredInDomain(domain, page, hrefs[..|hrefs| - 1]);
    }
  }

  /** Every link the crawl queues after the seed is a static link of the crawled site. */
  lemma {:induction false} ExpansionInDomain(domain: string, explored: seq<string>, fetch: string -> string,
                                             anchors: string -> seq<Option<string>>)
    ensures forall l :: l in Expansion(domain, explored, fetch, anchors) ==> domain <= l && '?' !in l
  {
    if explored != [] {
      var page := explored[|explored| - 1];
      ExpansionInDomain(domain, explored[..|explored| - 1], fetch, anchors);
      DiscoveredInDomain(domain, page, anchors(fetch(page)));
    }
  }

  /** The pages stored for the explored links, in exploration order. */
  function Stored(explored: seq<string>, fetch: string -> string): (r: seq<Entry>)
  {
    seq(|explored|, k requires 0 <= k < |explored| => (explored[k], fetch(explored[k])))
  }

  /** The entries in batches of n, filled in order: each entry joins the open (last) batch,
      which is closed, and a new empty one opened, as soon as it holds n entries. */
  function Chunks(s: seq<Entry>, n: nat): (r: seq<seq<Entry>>)
    requires n >= 1
    ensures |r| >= 1 && |r[|r| - 1]| < n
  {
    if s == [] then [[]]
    else
      var c := Chunks(s[..|s| - 1], n);
      var open := c[|c| - 1] + [s[|s| - 1]];
      if |open| < n then c[..|c| - 1] + [open] else c[..|c| - 1] + [open, []]
  }

  /** Adding one entry either extends the open batch or, when that fills it, closes it
      and opens an empty one. */
  lemma {:induction false} ChunksSnoc(s: seq<Entry>, e: Entry, n: nat)
    requires n >= 1
    ensures var c := Chunks(s, n);
            var last := c[|c| - 1];
            Chunks(s + [e], n) == if |last| + 1 < n then c[..|c| - 1] + [last + [e]]
                                  else c[..|c| - 1] + [last + [e], []]
  {
    assert (s + [e])[..|s|] == s;
  }

  /** Every batch but the last holds exactly n entries. */
  predicate FullBatches(batches: seq<seq<Entry>>, n: nat) {
    forall k :: 0 <= k < |batches| - 1 ==> |batches[k]| == n
  }

  lemma {:induction false} ChunksFull(s: seq<Entry>, n: nat)
    requires n >= 1
    ensures FullBatches(Chunks(s, n), n)
  {
    if s != [] {
      var init, e := s[..|s| - 1], s[|s| - 1];
      ChunksFull(init, n);
      FullStep(init, e, n);
      LastSplit(s);
    }
  }

  lemma {:induction false} FullStep(s: seq<Entry>, e: Entry, n: nat)
    requires n >= 1 && FullBatches(Chunks(s, n), n)
    ensures FullBatches(Chunks(s + [e], n), n)
  {
    var c, c' := Chunks(s, n), Chunks(s + [e], n);
    ChunksSnoc(s, e, n);
    forall k | 0 <= k < |c'| - 1 ensures |c'[k]| == n {
      if k < |c| - 1 {
        assert c'[k] == c[k];
      }
    }
  }

  lemma {:induction false} FlattenOpenBatch(closed: seq<seq<Entry>>, last: seq<Entry>, e: Entry)
    ensures Flatten(closed + [last + [e]]) == Flatten(closed + [last]) + [e]
    ensures Flatten(closed + [last + [e], []]) == Flatten(closed + [last]) + [e]
  {
    var none: seq<Entry> := [];
    FlattenSnoc(closed, last);
    FlattenSnoc(closed, last + [e]);
    assert closed + [last + [e], none] == (closed + [last + [e]]) + [none];
    FlattenSnoc(closed + [last + [e]], none);
  }

  /** Reading the batches back in order gives the entries again. */
  lemma {:induction false} ChunksFlatten(s: seq<Entry>, n: nat)
    requires n >= 1
    ensures Flatten(Chunks(s, n)) == s
  {
    if s == [] {
      var none: seq<Entry> := [];
      assert [none][..0] == [];
    } else {
      var init, e := s[..|s| - 1], s[|s| - 1];
      ChunksFlatten(init, n);
      FlattenStep(init, e, n);
      LastSplit(s);
    }
  }

  lemma {:induction false} FlattenStep(s: seq<Entry>, e: Entry, n: nat)
    requires n >= 1 && Flatten(Chunks(s, n)) == s
    ensures Flatten(Chunks(s + [e], n)) == s + [e]
  {
    var c := Chunks(s, n);
    ChunksSnoc(s, e, n);
    assert c == c[..|c| - 1] + [c[|c| - 1]];
    FlattenOpenBatch(c[..|c| - 1], c[|c| - 1], e);
  }

  /** The shards written in one crawl: batch k is saved under the name str(k). */
  function Named(batches: seq<seq<Entry>>): seq<Shard>
  {
    seq(|batches|, k requires 0 <= k < |batches| => Shard(NatToString(k), batches[k]))
  }

  /** No two shards of one crawl share a name, so none overwrites another. */
  lemma {:induction false} NamedDistinct(batches: seq<seq<Entry>>, i: nat, j: nat)
    requires i < j < |batches|
    ensures Named(batches)[i].name != Named(batches)[j].name
  {
    if Named(batches)[i].name == Named(batches)[j].name {
      NatToStringInjective(i, j);
    }
  }

  /** The pages of a crawl's shards, read in order, are exactly the explored links,
      each with its own body, each once. */
  lemma {:induction false} ShardsHoldExplored(explored: seq<string>, fetch: string -> string, n: nat)
    requires n >= 1 && NoDuplicates(explored)
    ensures var pages := Flatten(Chunks(Stored(explored, fetch), n));
            |pages| == |explored| && NoDuplicates(pages) &&
            forall k :: 0 <= k < |pages| ==> pages[k] == (explored[k], fetch(explored[k]))
  {
    ChunksFlatten(Stored(explored, fetch), n);
  }

  lemma {:induction false} ExpansionSnoc(domain: string, explored: seq<string>, page: string,
                                         fetch: string -> string, anchors: string -> seq<Option<string>>)
    ensures Expansion(domain, explored + [page], fetch, anchors)
         == Expansion(domain, explored, fetch, anchors) + Discovered(domain, page, anchors(fetch(page)))
  {
    assert (explored + [page])[..|explored|] == explored;
  }

  lemma {:induction false} StoredSnoc(explored: seq<string>, page: string, fetch: string -> string)
    ensures Stored(explored + [page], fetch) == Stored(explored, fetch) + [(page, fetch(page))]
  {
  }

  lemma {:induction false} NamedSnoc(batches: seq<seq<Entry>>, batch: seq<Entry>)
    ensures Named(batches + [batch]) == Named(batches) + [Shard(NatToString(|batches|), batch)]
  {
    var l, r := Named(batches + [batch]), Named(batches) + [Shard(NatToString(|batches|), batch)];
    assert |l| == |r|;
    forall k | 0 <= k < |l| ensures l[k] == r[k] {
      if k < |batches| {
        assert r[k] == Named(batches)[k];
      }
    }
  }

  /** Taking a link not seen before extends the explored links by it. */
  lemma {:induction false} FrontierStep(candidateLinks: seq<string>, i: nat, exploredLinks: seq<string>, extra: seq<string>)
    requires i < |candidateLinks| && exploredLinks == Dedup(candidateLinks[..i])
    requires candidateLinks[i] !in exploredLinks
    ensures exploredLinks + [candidateLinks[i]] == Dedup((candidateLinks + extra)[..i + 1])
  {
    assert (candidateLinks + extra)[..i + 1] == candidateLinks[..i] + [candidateLinks[i]];
    DedupSnoc(candidateLinks[..i], candidateLinks[i]);
  }

  /** Taking a link seen before leaves the explored links as they are. */
  lemma {:induction false} FrontierSkip(candidateLinks: seq<string>, i: nat, exploredLinks: seq<string>)
    requires i < |candidateLinks| && exploredLinks == Dedup(candidateLinks[..i])
    requires candidateLinks[i] in exploredLinks
    ensures exploredLinks == Dedup(candidateLinks[..i + 1])
  {
    assert candidateLinks[..i + 1] == candidateLinks[..i] + [candidateLinks[i]];
    DedupMembers(candidateLinks[..i]);
    DedupSnoc(candidateLinks[..i], candidateLinks[i]);
  }

  /** Appending a page's accepted anchors extends the frontier by that page's expansion. */
  lemma {:induction false} ExpansionStep(domain: string, seedLink: string, fetch: string -> string,
                                         anchors: string -> seq<Option<string>>,
                                         candidateLinks: seq<string>, exploredLinks: seq<string>, page: string)
    requires candidateLinks == [seedLink] + Expansion(domain, exploredLinks, fetch, anchors)
    ensures candidateLinks + Discovered(domain, page, anchors(fetch(page)))
         == [seedLink] + Expansion(domain, exploredLinks + [page], fetch, anchors)
  {
    ExpansionSnoc(domain, exploredLinks, page, fetch, anchors);
  }

  /** The first n entries of the frontier were each already queued when the loop reached
      them: entry k lies within the seed and the anchors of the pages explored before it. */
  ghost predicate Causal(domain: string, fetch: string -> string, anchors: string -> seq<Option<string>>,
                         frontier: seq<string>, n: nat)
  {
    n <= |frontier| &&
    forall k :: 0 <= k < n ==> k < 1 + |Expansion(domain, Dedup(frontier[..k]), fetch, anchors)|
  }

  /** Consuming entry i of a frontier that is the seed plus the expansion of the links explored
      so far, and then only appending to it, keeps every consumed entry queued before its turn. */
  lemma {:induction false} CausalStep(domain: string, seedLink: string, fetch: string -> string,
                                      anchors: string -> seq<Option<string>>,
                                      before: seq<string>, after: seq<string>, i: nat)
    requires Causal(domain, fetch, anchors, before, i) && i < |before|
    requires before == [seedLink] + Expansion(domain, Dedup(before[..i]), fetch, anchors)
    requires before <= after
    ensures Causal(domain, fetch, anchors, after, i + 1)
  {
    forall k | 0 <= k < i + 1
      ensures k < 1 + |Expansion(domain, Dedup(after[..k]), fetch, anchors)|
    {
      assert after[..k] == before[..k];
      if k < i {
        assert k < 1 + |Expansion(domain, Dedup(before[..k]), fetch, anchors)|;
      } else {
        assert |before| == 1 + |Expansion(domain, Dedup(before[..i]), fetch, anchors)|;
      }
    }
  }

  /** Storing a page adds it to the open batch, which is saved when it fills. */
  lemma {:induction false} BatchStep(n: nat, fetch: string -> string, exploredLinks: seq<string>, page: string,
                                     saved: seq<seq<Entry>>, cacheContent: seq<Entry>)
    requires n >= 1 && Chunks(Stored(exploredLinks, fetch), n) == saved + [cacheContent]
    ensures var cache := cacheContent + [(page, fetch(page))];
            Chunks(Stored(exploredLinks + [page], fetch), n)
              == if |cache| < n then saved + [cache] else saved + [cache] + [[]]
  {
    StoredSnoc(exploredLinks, page, fetch);
    ChunksSnoc(Stored(exploredLinks, fetch), (page, fetch(page)), n);
    var c := saved + [cacheContent];
    assert c[..|c| - 1] == saved;
  }

  /** The body of the loop over a fetched page's anchors: the href of one anchor, if the
      link processor accepts it, is appended to the frontier. */
  method AppendAnchorLink(domain: string, page: string, href: Option<string>,
                          candidateLinks: seq<string>) returns (extended: seq<string>)
    ensures extended == candidateLinks + Accepted(domain, page, href)
  {
    extended := candidateLinks;
    if href.None? || href.value == [] {   // no 'href' on the anchor
      return;
    }
    var finalLink := GetFinalLink(domain, href.value, page);
    if finalLink.Some? && finalLink.value != [] {
      extended := extended + [finalLink.value];
    }
  }

  /** The loop over a fetched page's anchors: every href the link processor accepts is
      appended to the frontier, in anchor order. */
  method AppendAnchorLinks(domain: string, page: string, hrefs: seq<Option<string>>,
                           candidateLinks: seq<string>) returns (extended: seq<string>)
    ensures extended == candidateLinks + Discovered(domain, page, hrefs)
  {
    extended := candidateLinks;
    for j := 0 to |hrefs|
      invariant extended == candidateLinks + Discovered(domain, page, hrefs[..j])
    {
      DiscoveredSnoc(domain, page, hrefs, j);
      extended := AppendAnchorLink(domain, page, hrefs[j], extended);
    }
    assert hrefs[..|hrefs|] == hrefs;
  }

  /** dumpCache: one shard written under the crawler's output directory, appended to
      the sequence of shards written so far. */
  ghost function DumpCache(shards: seq<Shard>, fileName: string, content: seq<Entry>): (r: seq<Shard>)
    ensures |r| == |shards| + 1 && r[..|shards|] == shards
    ensures r[|shards|].name == fileName && r[|shards|].entries == content
  {
    shards + [Shard(fileName, content)]
  }

  /** The check after each stored page: a batch holding dumpInterval pages is written as
      shard str(fileIndex) and a new, empty batch is opened. */
  method SaveIfFull(dumpInterval: int, cacheContent: seq<Entry>, fileIndex: nat,
                    ghost saved: seq<seq<Entry>>, ghost shards: seq<Shard>)
    returns (cache: seq<Entry>, nextIndex: nat, ghost saved': seq<seq<Entry>>, ghost shards': seq<Shard>)
    requires |cacheContent| >= 1 && fileIndex == |saved| && shards == Named(saved)
    ensures nextIndex == |saved'| && shards' == Named(saved')
    ensures saved' + [cache] == if |cacheContent| < ShardSize(dumpInterval) then saved + [cacheContent]
                                else saved + [cacheContent] + [[]]
  {
    cache, nextIndex, saved', shards' := cacheContent, fileIndex, saved, shards;
    if |cacheContent| >= dumpInterval {
      shards' := DumpCache(shards, NatToString(fileIndex), cacheContent);
      NamedSnoc(saved, cacheContent);
      saved' := saved + [cacheContent];
      nextIndex := fileIndex + 1;
      cache := [];
    }
  }

  class Crawler {
    /** Directory the shards are written to. */
    var outDir: string

    constructor (outDir: string)
      ensures this.outDir == outDir
    {
      this.outDir := outDir;
    }

    /** Crawls from seedLink and returns, for the contract, the shards written, the frontier,
        the number of its entries consumed and the explored links. */
    method Start(domain: string, seedLink: string, dumpInterval: int, maxExplore: int,
                 fetch: string -> string, anchors: string -> seq<Option<string>>)
      returns (ghost shards: seq<Shard>, ghost frontier: seq<string>, ghost consumed: nat,
               ghost explored: seq<string>)
      // the explored links are the frontier's first consumed entries, each once, in FIFO order
      ensures consumed <= |frontier|
      ensures explored == Dedup(frontier[..consumed])
      ensures NoDuplicates(explored)
      ensures |explored| <= ExploreBound(maxExplore)
      // the crawl stops early only because the bound is reached
      ensures consumed < |frontier| ==>
                |explored| == ExploreBound(maxExplore) && frontier[consumed] !in explored
      // the frontier is the seed followed by the accepted anchors of each explored page
      ensures frontier == [seedLink] + Expansion(domain, explored, fetch, anchors)
      // every consumed entry was queued, by the seed or an earlier explored page, before its turn
      ensures Causal(domain, fetch, anchors, frontier, consumed)
      // the shards written are the explored pages in batches, named "0", "1", ...
      ensures shards == Named(Chunks(Stored(explored, fetch), ShardSize(dumpInterval)))
    {
      var n := ShardSize(dumpInterval);
      var exploredLinks: seq<string> := [];
      var candidateLinks := [seedLink];
      var cacheContent: seq<Entry> := [];
      var fileIndex: nat := 0;
      ghost var saved: seq<seq<Entry>> := [];
      shards := [];
      var i := 0;
      while i < |candidateLinks|
        invariant 0 <= i <= |candidateLinks|
        invariant exploredLinks == Dedup(candidateLinks[..i])
        invariant |exploredLinks| <= ExploreBound(maxExplore)
        invariant candidateLinks == [seedLink] + Expansion(domain, exploredLinks, fetch, anchors)
        invariant Chunks(Stored(exploredLinks, fetch), n) == saved + [cacheContent]
        invariant fileIndex == |saved|
        invariant shards == Named(saved)
        invariant Causal(domain, fetch, anchors, candidateLinks, i)
        decreases ExploreBound(maxExplore) - |exploredLinks|, |candidateLinks| - i
      {
        ghost var before := candidateLinks;
        var candidateLink := candidateLinks[i];
        if candidateLink in exploredLinks {
          FrontierSkip(candidateLinks, i, exploredLinks);
          CausalStep(domain, seedLink, fetch, anchors, before, candidateLinks, i);
          i := i + 1;
          continue;
        }
        if |exploredLinks| >= maxExplore {
          break;
        }
        var responseBody := fetch(candidateLink);
        FrontierStep(candidateLinks, i, exploredLinks, Discovered(domain, candidateLink, anchors(responseBody)));
        ExpansionStep(domain, seedLink, fetch, anchors, candidateLinks, exploredLinks, candidateLink);
        BatchStep(n, fetch, exploredLinks, candidateLink, saved, cacheContent);
        exploredLinks := exploredLinks + [candidateLink];
        cacheContent := cacheContent + [(candidateLink, responseBody)];
        cacheContent, fileIndex, saved, shards := SaveIfFull(dumpInterval, cacheContent, fileIndex, saved, shards);
        candidateLinks := AppendAnchorLinks(domain, candidateLink, anchors(responseBody), candidateLinks);
        CausalStep(domain, seedLink, fetch, anchors, before, candidateLinks, i);
        i := i + 1;
      }
      shards := DumpCache(shards, NatToString(fileIndex), cacheContent);
      NamedSnoc(saved, cacheContent);
      DedupMembers(candidateLinks[..i]);
      frontier, consumed, explored := candidateLinks, i, exploredLinks;
    }
  }
}
