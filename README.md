# webSearchEngine core in Dafny

This project models the two computational parts of a small web search engine and proves properties of them.

- **The crawler** (`externalLib/crawler.py`):
  - **The link processor** turns the `href` of an anchor into a crawlable link. It strips a trailing `#section`, makes a `/`-rooted link absolute by prefixing the crawl domain, and rejects links outside the domain or containing `?`.
  - **The crawl loop (`Crawler.start`)** works through a first-in-first-out frontier that grows while it is consumed. It explores at most `maxExplore` distinct links, fetching each one once. The fetched pages are kept in a batch, and the batch is written out as shards named `"0"`, `"1"`, … every `dumpInterval` pages. A final shard with the remainder is always written.
- **The indexer** (`search_engine.py`):
  - **`index_document`** lower-cases the tokens of a document and drops those without a letter `a`–`z`. It counts the remaining words and appends one posting `"<docIndex>@<freq>"` per distinct word to that word's list in `tokenIndex`. It also records `docIndexMapping[docIndex] = docName`.
  - **`index_data`** indexes the records of every shard in order, with ids 1, 2, ….

## Files

The modules follow the structure of the program:

- `link_processing.dfy` — module `LinkProcessing`, the class `LinkProcessor`. Its methods become pure functions of the domain and the link.
- `crawling.dfy` — module `Crawling`, the class `Crawler`. Its method `Start` keeps the source's loop and local state:
  - `candidateLinks`, a `seq` that the loop appends to;
  - the dict `exploredLinkList`, which becomes `exploredLinks`, an insertion-ordered `seq` with no duplicates;
  - `cacheContent`, a `seq` of `(link, body)` entries;
  - `fileIndex`.

  `dumpCache` is a shard sink: it appends a named shard to a ghost sequence of the shards written.
- `search_engine.dfy` — module `SearchEngine`.
  - The module-level `tokenIndex` and `docIndexMapping` become the fields of class `SearchIndex`.
  - `index_document` becomes `SearchIndex.IndexDocument`. The `tokenFreq` loop inside it becomes `CountTokens`.
  - `index_data` becomes `SearchIndex.IndexData` over a sequence of shards, with its inner loop in `SearchIndex.IndexFile`.
- `seqs.dfy`, `decimal.dfy`, `wrappers.dfy` — shared helpers:
  - occurrence counts, first-occurrence order and concatenation of sequences;
  - `str()` and `int()` on natural numbers;
  - `Option`.

Each method is proved against a specification function:

- `Discovered` and `Expansion`: the links a page or a crawl adds to the frontier.
- `Chunks`, `Stored` and `Named`: the batches, the pages stored and the shards written.
- `Kept`, `Frequencies` and `Tally`: the counted words, their counts and `tokenFreq.items()`.
- `AddDocument` and `IndexAll`: the index after one document and after many.
- `Ids`: the id-to-name entries.

The lemmas then state what the source promises about those functions.

`sanitizePageSectionInLink` uses the pattern `(#[^#]+)$` (`externalLib/crawler.py:33`). A section needs at least one character, so a bare trailing `#` is kept. `SanitizeKeepsBareHash` states this.

`search_engine.py` stores raw integer frequencies. No stemming, stop-word removal, term weighting or querying is modelled.

## Model

| member | source | states |
|---|---|---|
| LinkProcessing.IsInternalRelativeLink | externalLib/crawler.py:13-16 | the link starts with '/' |
| LinkProcessing.IsInternalAbsoluteLink | externalLib/crawler.py:18-21 | the link starts with the domain, a literal prefix test (the regular expression is approximated, see Left out) |
| LinkProcessing.IsDynamicLink | externalLib/crawler.py:23-26 | the link contains '?' |
| LinkProcessing.LastIndexOf | externalLib/crawler.py:33 | None exactly when the character is absent; otherwise a position holding it, with no occurrence after it (the `[^#]+$` anchoring) |
| LinkProcessing.SanitizePageSectionInLink | externalLib/crawler.py:32-34 | the result is a prefix of the link. When it differs, the cut is at a '#' with at least one character and no other '#' after it. When it is unchanged, the link has no '#' or ends in '#' |
| LinkProcessing.SanitizeStripsSection | externalLib/crawler.py:28-34 | `base#section`, with a non-empty section free of '#', becomes exactly `base` |
| LinkProcessing.SanitizeKeepsBareHash | externalLib/crawler.py:33 | a link ending in a bare '#' is returned unchanged |
| LinkProcessing.SanitizeExamples | externalLib/crawler.py:28-31 | the documented example `/wiki/Wikipedia:Verifiability#Burden_of_evidence` gives `/wiki/Wikipedia:Verifiability`; `a#b#c` gives `a#b`; `/wiki/Database#` is kept |
| LinkProcessing.SanitizeWithoutHash | externalLib/crawler.py:32-34 | a link without '#' is returned unchanged |
| LinkProcessing.GetFinalLink | externalLib/crawler.py:36-55 | a link is returned exactly when the section-stripped href is not dynamic and lies in the domain, once it is made absolute when '/'-rooted. The link returned is the stripped href, prefixed with the domain exactly when it starts with '/'. Every result starts with the domain and contains no '?' |
| LinkProcessing.FinalLinkIgnoresParent | externalLib/crawler.py:36-55 | the result does not depend on the parent link, so a non-rooted relative href is never resolved against its page |
| LinkProcessing.SectionStrippedBeforeFiltering | externalLib/crawler.py:40-53 | the section is removed before the filters run: `/path#sec?x` is accepted as `domain/path` |
| LinkProcessing.FinalLinkAcceptExample | externalLib/crawler.py:41-44 | a sectioned relative Wikipedia link becomes the absolute link without its section |
| LinkProcessing.FinalLinkRejectsBareRelative | externalLib/crawler.py:43-50 | the href `Database` is rejected, not resolved against its page |
| LinkProcessing.FinalLinkRejectsDynamic | externalLib/crawler.py:51-53 | a rooted link containing '?' is rejected |
| LinkProcessing.FinalLinkRejectsOtherSite | externalLib/crawler.py:48-50 | an absolute link to another site is rejected |
| Decimal.NatToStringDigits | search_engine.py:37 | `str(n)` is all decimal digits, is "0" for 0, and has no leading zero otherwise |
| Decimal.StringToNatRoundTrip | search_engine.py:37 | `int(str(n)) == n` |
| Decimal.NatToStringInjective | externalLib/crawler.py:94 | distinct file indexes give distinct file names |
| Crawling.Discovered | externalLib/crawler.py:97-103 | the links a page adds to the frontier: the final links of its anchors that have an href and are accepted, in anchor order |
| Crawling.Expansion | externalLib/crawler.py:77-103 | the frontier a crawl builds: the seed, then the discovered links of each explored page in turn |
| Crawling.Stored | externalLib/crawler.py:90-91 | the pages stored: each explored link with its fetched body, in order |
| Crawling.Chunks | externalLib/crawler.py:91-96 | the stored pages cut into batches of `dumpInterval`, with the open, possibly empty, batch last |
| Crawling.Named | externalLib/crawler.py:94-95 | batch i is written as the shard named `str(i)` |
| Crawling.ShardSize | externalLib/crawler.py:93 | pages per shard: `len(cacheContent) >= dumpInterval`, tested right after an insertion, saves at `dumpInterval` pages, and after every page when `dumpInterval` < 1 |
| Crawling.ExploreBound | externalLib/crawler.py:80 | the most pages explored: `len(exploredLinkList) >= maxExplore` stops at `maxExplore` pages, and at once when it is negative |
| Crawling.Accepted | externalLib/crawler.py:98-103 | one anchor adds at most one link, and any link it adds is non-empty, starts with the domain and contains no '?' |
| Crawling.DiscoveredInDomain | externalLib/crawler.py:97-103 | every link a page adds to the frontier is non-empty, in the domain and static |
| Crawling.ExpansionInDomain | externalLib/crawler.py:77-103 | every link queued after the seed is in the domain and static |
| Crawling.AppendAnchorLink | externalLib/crawler.py:98-103 | the frontier is extended by the final link of the anchor when it has a non-empty href that the link processor accepts, and by nothing otherwise |
| Crawling.AppendAnchorLinks | externalLib/crawler.py:97-103 | the frontier is extended at its end by the accepted links of the page's anchors, in anchor order |
| Crawling.DumpCache | externalLib/crawler.py:66-68 | one shard with the given name and content is appended, and the earlier shards are unchanged |
| Crawling.SaveIfFull | externalLib/crawler.py:93-96 | a batch holding `dumpInterval` pages is written as shard `str(fileIndex)`, the index advances and the batch is emptied; otherwise nothing changes. This keeps the invariant that the shards are the named closed batches |
| Crawling.ChunksSnoc | externalLib/crawler.py:91-96 | a stored page joins the open batch, which is closed and replaced by an empty one when it fills |
| Crawling.ChunksFull | externalLib/crawler.py:93-96 | every batch but the last holds exactly the batch size |
| Crawling.ChunksFlatten | externalLib/crawler.py:91-104 | the batches read back in order are the stored pages, nothing lost or repeated |
| Crawling.NamedDistinct | externalLib/crawler.py:94-95 | no two shards of a crawl have the same name |
| Crawling.ShardsHoldExplored | externalLib/crawler.py:90-104 | the pages of all shards, in order, are exactly the explored links, each once, each with its fetched body |
| Crawling.FrontierSkip | externalLib/crawler.py:78-79 | a candidate already explored leaves the explored links unchanged |
| Crawling.FrontierStep | externalLib/crawler.py:90 | a new candidate is appended to the explored links, which remain the first occurrences of the consumed frontier |
| Crawling.Causal | externalLib/crawler.py:77-103 | the loop consumes frontier entry k only once it is there: k lies within the seed and the accepted anchors of the pages explored from the entries before k |
| Crawling.CausalStep | externalLib/crawler.py:77-103 | consuming the next entry of a frontier that is the seed plus the expansion of the pages explored so far, then only appending to it, keeps every consumed entry queued before its turn |
| Crawling.Crawler.constructor | externalLib/crawler.py:60-61 | the crawler keeps its output directory |
| Crawling.Crawler.Start | externalLib/crawler.py:70-104 | the explored links are the distinct entries of the consumed frontier prefix, in first-in-first-out order and at most `maxExplore`. The crawl stops early only when the bound is reached. The frontier is the seed followed by each explored page's accepted anchors, and every consumed entry was already queued, by the seed or by a page explored before it, when the loop reached it (`Causal`). The shards written are the explored pages in batches of `dumpInterval`, named "0", "1", …, with a final, possibly empty, shard |
| SearchEngine.Lower | search_engine.py:29 | the result is not an upper-case letter, and is a lower-case letter exactly when the input is a letter |
| SearchEngine.LowerString | search_engine.py:29 | same length, no upper-case letter |
| SearchEngine.LowerStringIdempotent | search_engine.py:29 | lower-casing twice equals lower-casing once |
| SearchEngine.HasLetter | search_engine.py:30 | `re.search(r'.*[a-z].*', token)`: some character is in a-z |
| SearchEngine.Kept | search_engine.py:28-31 | the lower-cased tokens that contain a letter in a-z, in order |
| SearchEngine.Frequencies | search_engine.py:27-35 | `tokenFreq`: each kept word mapped to its number of occurrences |
| SearchEngine.KeptAreLowerWords | search_engine.py:28-31 | every counted word is lower-case and contains a letter in a-z |
| SearchEngine.KeptMembers | search_engine.py:28-31 | a word is counted exactly when it is the lower-cased form of some token and contains a letter in a-z |
| SearchEngine.FrequenciesKeys | search_engine.py:32-35 | the counted words are exactly the kept words, each with a count of at least 1 and at most the number of kept words |
| SearchEngine.FrequenciesSnoc | search_engine.py:32-35 | counting one more word raises its count by one, or enters it with count 1 |
| SearchEngine.FrequenciesSumToLength | search_engine.py:27-35 | the counts of the distinct words add up to the number of kept tokens |
| SearchEngine.CountStep | search_engine.py:28-35 | one loop step: a token without a letter changes nothing, a known word's count goes up by one, and a new word enters with count 1 after the others |
| SearchEngine.CountTokens | search_engine.py:27-35 | `tokenFreq` maps each kept word to its number of occurrences, and its key order is the order of first occurrence |
| SearchEngine.PostingRoundTrip | search_engine.py:37 | `str(d) + "@" + str(f)` splits on its single '@' and reads back as (d, f) |
| SearchEngine.Postings | search_engine.py:19-37 | `tokenIndex[t]` of the `defaultdict(list)`: the list stored for t, and the empty list when t was never seen |
| SearchEngine.Posting | search_engine.py:37 | the posting string `str(docIndex) + "@" + str(freq)` |
| SearchEngine.Tally | search_engine.py:36 | `tokenFreq.items()`: the counted words in first-occurrence order, each with its count |
| SearchEngine.AddDocument | search_engine.py:36-37 | the index after one document: each item (t, c) appends its posting to the list of t |
| SearchEngine.IndexAll | search_engine.py:44-50 | the index after documents with consecutive ids, one `AddDocument` each in order |
| SearchEngine.Ids | search_engine.py:44-50 | the `docIndexMapping` entries of `index_data`: record i gets id first + i, mapped to its name |
| SearchEngine.TallyIsFrequencies | search_engine.py:36 | `tokenFreq.items()` has each counted word once, with its count, and every counted word appears in it |
| SearchEngine.TallyHas | search_engine.py:36 | (t, c) is an item exactly when the document holds t exactly c times |
| SearchEngine.AddDocumentPostings | search_engine.py:36-37 | every earlier posting is kept; the list of each word of the document becomes the old list followed by exactly `str(docIndex) + "@" + str(count)`, which reads back as (docIndex, count); every other word's list is unchanged |
| SearchEngine.DocumentPostings | search_engine.py:20-37 | stated in terms of the document's tokens: the list of each counted word t becomes the old list followed by exactly `str(docIndex) + "@" + str(count of t)`; the list of every other word is unchanged |
| SearchEngine.AddDocumentListed | search_engine.py:36-37 | after one document, (d, c) is listed under t exactly when it was listed before, or d is this document and t occurs in it c times |
| SearchEngine.AddDocumentOrdered | search_engine.py:36-37 | a document whose id is above every id in the index keeps every list in strictly increasing id order |
| SearchEngine.IndexAllOrdered | search_engine.py:44-50 | indexing documents with consecutive ids above those in the index keeps every list strictly increasing |
| SearchEngine.RecordsOrdered | search_engine.py:44-50 | the same for the records of `index_data` |
| SearchEngine.IndexAllListed | search_engine.py:44-50 | after many documents, (d, c) is listed under t exactly when it was listed before, or d is one of the new ids and document d holds t c times |
| SearchEngine.IndexFindsDocuments | search_engine.py:19-50 | starting from the empty index, the list of t holds "d@c" exactly when record d (ids from 1) holds the word t exactly c times |
| SearchEngine.FreshIds | search_engine.py:39-62 | index_data on the empty `docIndexMapping` of line 61 yields keys exactly 1..N, and id k names record k |
| SearchEngine.IdsEntries | search_engine.py:44-50 | the ids given are exactly first, …, first + N - 1, and id k names record k - first |
| SearchEngine.SearchIndex.constructor | search_engine.py:19 | `tokenIndex` and `docIndexMapping` start empty |
| SearchEngine.SearchIndex.IndexDocument | search_engine.py:20-37 | `docIndexMapping` gains (or overwrites) only the entry `docIndex -> docName`. `tokenIndex` becomes the index with the document's items appended, which the lemmas above characterise |
| SearchEngine.SearchIndex.IndexFile | search_engine.py:48-50 | the records of a shard are indexed in order with ids first, first + 1, …; the next id is returned |
| SearchEngine.SearchIndex.IndexData | search_engine.py:39-50 | the records of all shards, in order, are indexed with ids 1, 2, …. The mapping gains exactly the entries given by `Ids`, and the index is the one `IndexAll` describes. From the fresh, empty mapping of the script, the keys are then exactly 1..N (`FreshIds`) |

## Left out

- HTTP fetching and its exception branches (`externalLib/crawler.py:82-88`). The fetch is a total function parameter `fetch: string -> string`. The source's failure path reuses a stale or unbound response, and that defect is not modelled.
- HTML parsing (BeautifulSoup) and tokenization (`nltk.word_tokenize`). These are foreign libraries. A page's anchors are a function parameter `anchors: string -> seq<Option<string>>`, with `None` for an anchor without `href`. A document's tokens are an input `seq<string>`.
- Files and directories:
  - `pickle`, file reads and writes, `os.makedirs` and `os.walk` are I/O.
  - Shards are the ghost result of `Crawler.Start`, built with `DumpCache`.
  - `index_data` receives the shards' records as a `seq<seq<Record>>`.
  - The output directory is kept by the crawler but is not part of a shard's name.
- Printing, the `__main__` block, `collect_data` and the module-level script: console output and configuration.
- IsInternalAbsoluteLink: `'^' + domain` is a regular expression in the source, in which the unescaped `.` of a domain matches any character. The model tests for a literal prefix.
- Lower: only the ASCII letters A-Z are lower-cased; Unicode case mapping is not modelled.
- `docIndex` is a natural number; Python integers are unbounded, so nothing wraps.
- The `linkProcessor` parameter of `start` (a caller-supplied processor) is not modelled; the crawl always uses the domain's own link processor.
- Dictionary iteration order: the key order of `tokenFreq` is modelled as first-occurrence order. The order of records inside a shard is the order given in the input.
- SearchIndex.IndexData: the strictly increasing order of each posting list is stated by `RecordsOrdered` about `IndexAll`, not as a postcondition of the method.
- Crawling.Crawler.Start: the parameter defaults `dumpInterval = 10` and `maxExplore = 100` (`externalLib/crawler.py:70`) are not modelled; every caller passes both.
- Crawling.Crawler.Start: its results are ghost. The source returns nothing, and its observable effect is the shards it writes.
