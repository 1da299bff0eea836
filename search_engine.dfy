/** The inverted index of search_engine.py: for every lower-cased word, the list of postings
    "docIndex@freq" of the documents it occurs in, and the map from document id to name. */
module SearchEngine {
  import opened Wrappers
  import opened Seqs
  import opened Decimal

  // ---------------------------------------------------------------------------------------
  // Token filtering

  /** str.lower() on one character, for the ASCII letters. */
  function Lower(c: char): (r: char)
    ensures !('A' <= r <= 'Z')
    ensures 'a' <= r <= 'z' <==> 'a' <= c <= 'z' || 'A' <= c <= 'Z'
  {
    if 'A' <= c <= 'Z' then (c as int + 32) as char else c
  }

  predicate NoUpper(s: string) {
    forall k :: 0 <= k < |s| ==> !('A' <= s[k] <= 'Z')
  }

  /** str.lower(). */
  function LowerString(s: string): (r: string)
    ensures |r| == |s| && NoUpper(r)
  {
    seq(|s|, k requires 0 <= k < |s| => Lower(s[k]))
  }

  /** Lower-casing a lower-cased token changes nothing. */
  lemma {:induction false} LowerStringIdempotent(s: string)
    ensures LowerString(LowerString(s)) == LowerString(s)
  {
    var once := LowerString(s);
    forall k | 0 <= k < |s| ensures LowerString(once)[k] == once[k] {
      assert once[k] == Lower(s[k]);
    }
  }

  /** The test re.search(r'.*[a-z].*', token): some character is a lower-case letter. */
  predicate HasLetter(t: string) {
    exists k :: 0 <= k < |t| && 'a' <= t[k] <= 'z'
  }

  /** The lower-cased tokens that index_document counts, in token order. */
  function Kept(tokens: seq<string>): (r: seq<string>)
    ensures |r| <= |tokens|
  {
    if tokens == [] then []
    else
      var token := LowerString(tokens[|tokens| - 1]);
      Kept(tokens[..|tokens| - 1]) + (if HasLetter(token) then [token] else [])
  }

  lemma {:induction false} KeptSnoc(tokens: seq<string>, i: nat)
    requires i < |tokens|
    ensures var token := LowerString(tokens[i]);
            Kept(tokens[..i + 1]) == Kept(tokens[..i]) + (if HasLetter(token) then [token] else [])
  {
    assert tokens[..i + 1][..i] == tokens[..i];
  }

  /** Every counted word is lower-case and holds a letter in a-z. */
  lemma {:induction false} KeptAreLowerWords(tokens: seq<string>)
    ensures forall t :: t in Kept(tokens) ==> HasLetter(t) && NoUpper(t)
  {
    if tokens != [] {
      KeptAreLowerWords(tokens[..|tokens| - 1]);
    }
  }

  /** A word is counted exactly when it is the lower-cased form of some token and holds a
      letter in a-z. */
  lemma {:induction false} KeptMembers(tokens: seq<string>, t: string)
    ensures t in Kept(tokens) <==>
            exists j :: 0 <= j < |tokens| && LowerString(tokens[j]) == t && HasLetter(t)
  {
    if tokens != [] {
      var init := tokens[..|tokens| - 1];
      KeptMembers(init, t);
      if t in Kept(tokens) && t !in Kept(init) {
        assert LowerString(tokens[|tokens| - 1]) == t;
      }
      if j :| 0 <= j < |tokens| && LowerString(tokens[j]) == t && HasLetter(t) {
        if j < |init| {
          assert init[j] == tokens[j];
        }
      }
    }
  }

  // ---------------------------------------------------------------------------------------
  // Frequencies

  /** tokenFreq after the counting loop: each kept word with its number of occurrences. */
  function Frequencies(kept: seq<string>): map<string, nat>
  {
    map t | t in kept :: Count(kept, t)
  }

  /** Exactly the kept words are counted, each at least once and at most once per token. */
  lemma {:induction false} FrequenciesKeys(kept: seq<string>)
    ensures forall t :: t in Frequencies(kept) <==> t in kept
    ensures forall t :: t in Frequencies(kept) ==> 1 <= Frequencies(kept)[t] <= |kept|
  {
  }

  /** Counting one more word adds one to its count, or enters it with count 1. */
  lemma {:induction false} FrequenciesSnoc(kept: seq<string>, t: string)
    ensures Frequencies(kept + [t]) ==
            if t in Frequencies(kept) then Frequencies(kept)[t := Frequencies(kept)[t] + 1]
            else Frequencies(kept)[t := 1]
  {
    var l := Frequencies(kept + [t]);
    var r := if t in Frequencies(kept) then Frequencies(kept)[t := Frequencies(kept)[t] + 1]
             else Frequencies(kept)[t := 1];
    assert l.Keys == r.Keys;
    forall u | u in l ensures l[u] == r[u] {
      CountSnoc(kept, t, u);
    }
  }

  /** Sum of the counts of the given words. */
  function SumCounts(keys: seq<string>, freq: map<string, nat>): nat
    requires forall t :: t in keys ==> t in freq
  {
    if keys == [] then 0
    else SumCounts(keys[..|keys| - 1], freq) + freq[keys[|keys| - 1]]
  }

  lemma {:induction false} SumCountsIsTotalCount(keys: seq<string>, kept: seq<string>)
    requires forall t :: t in keys ==> t in kept
    ensures SumCounts(keys, Frequencies(kept)) == TotalCount(keys, kept)
  {
    if keys != [] {
      SumCountsIsTotalCount(keys[..|keys| - 1], kept);
    }
  }

  /** The counts, each word taken once, add up to the number of kept tokens. */
  lemma {:induction false} FrequenciesSumToLength(kept: seq<string>)
    ensures forall t :: t in Dedup(kept) ==> t in Frequencies(kept)
    ensures SumCounts(Dedup(kept), Frequencies(kept)) == |kept|
  {
    DedupMembers(kept);
    FrequenciesKeys(kept);
    SumCountsIsTotalCount(Dedup(kept), kept);
    CountsSumToLength(kept);
  }

  /** One step of the counting loop: a token without a letter changes nothing; a word met
      before has its count raised by one; a new word enters with count 1, after the others. */
  lemma {:induction false} CountStep(tokens: seq<string>, i: nat)
    requires i < |tokens|
    ensures var token, before, after := LowerString(tokens[i]), Kept(tokens[..i]), Kept(tokens[..i + 1]);
            var freq := Frequencies(before);
            (!HasLetter(token) ==> Frequencies(after) == freq && Dedup(after) == Dedup(before)) &&
            (HasLetter(token) && token in freq ==>
               Frequencies(after) == freq[token := freq[token] + 1] && Dedup(after) == Dedup(before)) &&
            (HasLetter(token) && token !in freq ==>
               Frequencies(after) == freq[token := 1] && Dedup(after) == Dedup(before) + [token])
  {
    var token, before := LowerString(tokens[i]), Kept(tokens[..i]);
    KeptSnoc(tokens, i);
    if !HasLetter(token) {
      assert Kept(tokens[..i + 1]) == before + [];
      assert before + [] == before;
    } else {
      assert Kept(tokens[..i + 1]) == before + [token];
      FrequenciesSnoc(before, token);
      FrequenciesKeys(before);
      DedupSnoc(before, token);
    }
  }

  /** The counting loop of index_document: each kept word with its number of occurrences
      (the tokenFreq dict), and the words in the order they were first met (its key order). */
  method CountTokens(tokens: seq<string>) returns (tokenFreq: map<string, nat>, tokenOrder: seq<string>)
    ensures tokenFreq == Frequencies(Kept(tokens))
    ensures tokenOrder == Dedup(Kept(tokens))
  {
    tokenFreq := map[];
    tokenOrder := [];
    for i := 0 to |tokens|
      invariant tokenFreq == Frequencies(Kept(tokens[..i]))
      invariant tokenOrder == Dedup(Kept(tokens[..i]))
    {
      var token := LowerString(tokens[i]);
      CountStep(tokens, i);
      if !HasLetter(token) {
        continue;
      }
      if token in tokenFreq {
        tokenFreq := tokenFreq[token := tokenFreq[token] + 1];
      } else {
        tokenFreq := tokenFreq[token := 1];
        tokenOrder := tokenOrder + [token];
      }
    }
    assert tokens[..|tokens|] == tokens;
  }

  // ---------------------------------------------------------------------------------------
  // Postings

  /** str.split(sep). */
  function Split(s: string, sep: char): (r: seq<string>)
    ensures |r| >= 1
    ensures forall k :: 0 <= k < |r| ==> sep !in r[k]
    decreases |s|
  {
    if s == [] then [[]]
    else
      var rest := Split(s[1..], sep);
      if s[0] == sep then [[]] + rest else [[s[0]] + rest[0]] + rest[1..]
  }

  /** sep.join(parts). */
  function Join(parts: seq<string>, sep: char): string
    requires |parts| >= 1
    decreases |parts|
  {
    if |parts| == 1 then parts[0] else parts[0] + [sep] + Join(parts[1..], sep)
  }

  /** Splitting undoes joining parts that do not contain the separator. */
  lemma {:induction false} SplitJoin(parts: seq<string>, sep: char)
    requires |parts| >= 1
    requires forall k :: 0 <= k < |parts| ==> sep !in parts[k]
    ensures Split(Join(parts, sep), sep) == parts
    decreases |parts|, |parts[0]|
  {
    if parts[0] == [] {
      if |parts| > 1 {
        var tail := Join(parts[1..], sep);
        assert Join(parts, sep) == [sep] + tail;
        assert ([sep] + tail)[1..] == tail;
        SplitJoin(parts[1..], sep);
        assert parts == [[]] + parts[1..];
      }
    } else {
      var c := parts[0][0];
      var shorter := [parts[0][1..]] + parts[1..];
      assert Join(parts, sep) == [c] + Join(shorter, sep) by {
        if |parts| > 1 {
          assert shorter[1..] == parts[1..];
        }
      }
      assert ([c] + Join(shorter, sep))[1..] == Join(shorter, sep);
      assert sep !in shorter[0] by {
        assert forall x :: x in parts[0][1..] ==> x in parts[0];
      }
      SplitJoin(shorter, sep);
      assert [c] + shorter[0] == parts[0];
      assert shorter[1..] == parts[1..];
      assert parts == [[c] + shorter[0]] + shorter[1..];
    }
  }

  /** The posting appended for a document: str(docIndex) + "@" + str(freq). */
  function Posting(docIndex: nat, freq: nat): string
  {
    NatToString(docIndex) + "@" + NatToString(freq)
  }

  /** Reading a posting back: the two decimal fields around its single '@'. */
  function ParsePosting(p: string): Option<(nat, nat)>
  {
    var parts := Split(p, '@');
    if |parts| == 2 && AllDigits(parts[0]) && AllDigits(parts[1]) && parts[0] != [] && parts[1] != []
    then Some((StringToNat(parts[0]), StringToNat(parts[1])))
    else None
  }

  /** A posting reads back as the document id and frequency it was built from. */
  lemma {:induction false} PostingRoundTrip(docIndex: nat, freq: nat)
    ensures ParsePosting(Posting(docIndex, freq)) == Some((docIndex, freq))
  {
    var a, b := NatToString(docIndex), NatToString(freq);
    NatToStringDigits(docIndex);
    NatToStringDigits(freq);
    assert Posting(docIndex, freq) == Join([a, b], '@');
    assert '@' !in a && '@' !in b by {
      assert forall x :: x in a ==> IsDigit(x);
      assert forall x :: x in b ==> IsDigit(x);
    }
    SplitJoin([a, b], '@');
    StringToNatRoundTrip(docIndex);
    StringToNatRoundTrip(freq);
  }

  // ---------------------------------------------------------------------------------------
  // The index

  /** tokenIndex[t] of the defaultdict(list): the postings of t, empty when t was never seen. */
  function Postings(tokenIndex: map<string, seq<string>>, t: string): seq<string>
  {
    if t in tokenIndex then tokenIndex[t] else []
  }

  /** One entry of tokenFreq.items(): a word and its count. */
  type Item = (string, nat)

  /** No word occurs in two items (as in the items of a dict). */
  predicate DistinctWords(items: seq<Item>) {
    forall j, k :: 0 <= j < k < |items| ==> items[j].0 != items[k].0
  }

  /** tokenFreq.items() after the counting loop: each kept word, in the order it was first
      met, with its number of occurrences. */
  function Tally(kept: seq<string>): seq<Item>
  {
    var order := Dedup(kept);
    seq(|order|, k requires 0 <= k < |order| => (order[k], Count(kept, order[k])))
  }

  /** The items are exactly the entries of Frequencies(kept), each word once. */
  lemma {:induction false} TallyIsFrequencies(kept: seq<string>)
    ensures DistinctWords(Tally(kept))
    ensures forall k :: 0 <= k < |Tally(kept)| ==>
              Tally(kept)[k].0 in Frequencies(kept) && Tally(kept)[k].1 == Frequencies(kept)[Tally(kept)[k].0]
    ensures forall t :: t in Frequencies(kept) ==> exists k :: 0 <= k < |Tally(kept)| && Tally(kept)[k].0 == t
  {
    var items, order := Tally(kept), Dedup(kept);
    DedupMembers(kept);
    FrequenciesKeys(kept);
    forall t | t in Frequencies(kept) ensures exists k :: 0 <= k < |items| && items[k].0 == t {
      var k :| 0 <= k < |order| && order[k] == t;
      assert items[k].0 == t;
    }
  }

  /** The items, one more at a time: the next item is the next word of the key order with
      its count in the tokenFreq dict. */
  lemma {:induction false} TallyStep(kept: seq<string>, j: nat)
    requires j < |Dedup(kept)|
    ensures Dedup(kept)[j] in Frequencies(kept)
    ensures Tally(kept)[..j + 1] == Tally(kept)[..j] + [(Dedup(kept)[j], Frequencies(kept)[Dedup(kept)[j]])]
  {
    DedupMembers(kept);
  }

  /** tokenIndex after the posting loop of index_document: for each item, in order, the
      posting "docIndex@count" appended to the list of its word. */
  function AddDocument(tokenIndex: map<string, seq<string>>, items: seq<Item>, docIndex: nat)
    : map<string, seq<string>>
  {
    if items == [] then tokenIndex
    else
      var prev := AddDocument(tokenIndex, items[..|items| - 1], docIndex);
      var t := items[|items| - 1].0;
      prev[t := Postings(prev, t) + [Posting(docIndex, items[|items| - 1].1)]]
  }

  /** Indexing a document keeps every earlier posting, appends exactly one posting
      str(docIndex) + "@" + str(count), which reads back as the document id and the word's
      count, to the list of each word of the items, and leaves the lists of all other words
      as they were. */
  lemma {:induction false} AddDocumentPostings(tokenIndex: map<string, seq<string>>, items: seq<Item>,
                                               docIndex: nat, t: string)
    requires DistinctWords(items)
    ensures var before, after := Postings(tokenIndex, t), Postings(AddDocument(tokenIndex, items, docIndex), t);
            |before| <= |after| && after[..|before|] == before &&
            (forall k :: 0 <= k < |items| && items[k].0 == t ==>
               after == before + [Posting(docIndex, items[k].1)] && |after| == |before| + 1 &&
               ParsePosting(after[|before|]) == Some((docIndex, items[k].1))) &&
            ((forall k :: 0 <= k < |items| ==> items[k].0 != t) ==> after == before)
  {
    if items != [] {
      var init, last := items[..|items| - 1], items[|items| - 1];
      var before := Postings(tokenIndex, t);
      assert DistinctWords(init) by {
        forall j, k | 0 <= j < k < |init| ensures init[j].0 != init[k].0 {
          assert init[j] == items[j] && init[k] == items[k];
        }
      }
      AddDocumentPostings(tokenIndex, init, docIndex, t);
      if last.0 == t {
        assert forall k :: 0 <= k < |init| ==> init[k].0 != t by {
          forall k | 0 <= k < |init| ensures init[k].0 != t {
            assert init[k] == items[k];
          }
        }
        PostingRoundTrip(docIndex, last.1);
        var after := Postings(AddDocument(tokenIndex, items, docIndex), t);
        assert after == before + [Posting(docIndex, last.1)];
        assert after[..|before|] == before;
        forall k | 0 <= k < |items| && items[k].0 == t
          ensures after == before + [Posting(docIndex, items[k].1)] && |after| == |before| + 1
          ensures ParsePosting(after[|before|]) == Some((docIndex, items[k].1))
        {
          assert k == |items| - 1;
        }
      } else {
        forall k | 0 <= k < |items| && items[k].0 == t ensures k < |init| && init[k] == items[k] {
        }
      }
    }
  }

  /** index_document, word by word: the list of each counted word gains exactly the one
      posting str(docIndex) + "@" + str(freq), which reads back as the document id and the
      word's number of occurrences; the list of every other word is unchanged. */
  lemma {:induction false} DocumentPostings(tokenIndex: map<string, seq<string>>, tokens: seq<string>, docIndex: nat, t: string)
    ensures var freq := Frequencies(Kept(tokens));
            var before, after := Postings(tokenIndex, t), Postings(AddDocument(tokenIndex, Tally(Kept(tokens)), docIndex), t);
            |before| <= |after| && after[..|before|] == before &&
            (t in freq ==> after == before + [Posting(docIndex, freq[t])] && |after| == |before| + 1 &&
                           ParsePosting(after[|before|]) == Some((docIndex, freq[t]))) &&
            (t !in freq ==> after == before)
  {
    var kept := Kept(tokens);
    var items := Tally(kept);
    TallyIsFrequencies(kept);
    AddDocumentPostings(tokenIndex, items, docIndex, t);
    if t in Frequencies(kept) {
      var k :| 0 <= k < |items| && items[k].0 == t;
    }
  }

  /** The document id a posting reads back as, -1 for a malformed posting. */
  function DocOf(p: string): int
  {
    match ParsePosting(p)
    case Some(v) => v.0
    case None => -1
  }

  /** The document ids of a list of postings, in order. */
  function DocIds(postings: seq<string>): (r: seq<int>)
    ensures |r| == |postings|
  {
    if postings == [] then []
    else DocIds(postings[..|postings| - 1]) + [DocOf(postings[|postings| - 1])]
  }

  /** A list of postings whose document ids lie below bound and strictly increase. */
  predicate Increasing(postings: seq<string>, bound: nat)
  {
    var ids := DocIds(postings);
    (forall k :: 0 <= k < |ids| ==> 0 <= ids[k] < bound) &&
    (forall j, k :: 0 <= j < k < |ids| ==> ids[j] < ids[k])
  }

  /** Every list of the index is Increasing below bound. */
  predicate WellOrdered(tokenIndex: map<string, seq<string>>, bound: nat)
  {
    forall t :: t in tokenIndex ==> Increasing(tokenIndex[t], bound)
  }

  /** Indexing a document whose id exceeds all ids in the index keeps every list increasing. */
  lemma {:induction false} AddDocumentOrdered(tokenIndex: map<string, seq<string>>, items: seq<Item>, docIndex: nat)
    requires WellOrdered(tokenIndex, docIndex) && DistinctWords(items)
    ensures WellOrdered(AddDocument(tokenIndex, items, docIndex), docIndex + 1)
  {
    var r := AddDocument(tokenIndex, items, docIndex);
    forall t | t in r ensures Increasing(r[t], docIndex + 1) {
      var before := Postings(tokenIndex, t);
      AddDocumentPostings(tokenIndex, items, docIndex, t);
      assert r[t] == Postings(r, t);
      if k :| 0 <= k < |items| && items[k].0 == t {
        var p := r[t][|before|];
        assert r[t] == before + [p];
        assert DocOf(p) == docIndex;
        assert DocIds(r[t]) == DocIds(before) + [docIndex];
      }
    }
  }

  /** One record of a shard: the page's name and the words of its visible text. */
  type Record = (string, seq<string>)

  /** The items of each record, in order. */
  function Counted(records: seq<Record>): (r: seq<seq<Item>>)
    ensures |r| == |records|
  {
    if records == [] then []
    else Counted(records[..|records| - 1]) + [Tally(Kept(records[|records| - 1].1))]
  }

  lemma {:induction false} CountedSnoc(records: seq<Record>, r: Record)
    ensures Counted(records + [r]) == Counted(records) + [Tally(Kept(r.1))]
  {
    assert (records + [r])[..|records|] == records;
  }

  lemma {:induction false} CountedAppend(records: seq<Record>, more: seq<Record>)
    ensures Counted(records + more) == Counted(records) + Counted(more)
    decreases |more|
  {
    if more == [] {
      assert records + more == records;
    } else {
      var init, last := more[..|more| - 1], more[|more| - 1];
      assert records + more == (records + init) + [last];
      assert more == init + [last];
      CountedAppend(records, init);
      CountedSnoc(records + init, last);
      CountedSnoc(init, last);
    }
  }

  lemma {:induction false} CountedDistinct(records: seq<Record>)
    ensures forall k :: 0 <= k < |records| ==> DistinctWords(Counted(records)[k])
  {
    if records != [] {
      CountedDistinct(records[..|records| - 1]);
      TallyIsFrequencies(Kept(records[|records| - 1].1));
    }
  }

  /** tokenIndex after documents with the given items are indexed in order with ids
      first, first + 1, ... */
  function IndexAll(tokenIndex: map<string, seq<string>>, docs: seq<seq<Item>>, first: nat)
    : map<string, seq<string>>
  {
    if docs == [] then tokenIndex
    else AddDocument(IndexAll(tokenIndex, docs[..|docs| - 1], first), docs[|docs| - 1], first + |docs| - 1)
  }

  lemma {:induction false} IndexAllSnoc(tokenIndex: map<string, seq<string>>, docs: seq<seq<Item>>, items: seq<Item>, first: nat)
    ensures IndexAll(tokenIndex, docs + [items], first)
         == AddDocument(IndexAll(tokenIndex, docs, first), items, first + |docs|)
  {
    assert (docs + [items])[..|docs|] == docs;
  }

  /** Indexing documents with ids above every id in the index keeps each list increasing:
      a word's postings list its documents in id order. */
  lemma {:induction false} IndexAllOrdered(tokenIndex: map<string, seq<string>>, docs: seq<seq<Item>>, first: nat)
    requires WellOrdered(tokenIndex, first)
    requires forall k :: 0 <= k < |docs| ==> DistinctWords(docs[k])
    ensures WellOrdered(IndexAll(tokenIndex, docs, first), first + |docs|)
  {
    if docs != [] {
      var init, last := docs[..|docs| - 1], docs[|docs| - 1];
      IndexAllOrdered(tokenIndex, init, first);
      AddDocumentOrdered(IndexAll(tokenIndex, init, first), last, first + |init|);
    }
  }

  /** Indexing records from an index whose ids all lie below first keeps every list of the
      index in increasing id order. */
  lemma {:induction false} RecordsOrdered(tokenIndex: map<string, seq<string>>, records: seq<Record>, first: nat)
    requires WellOrdered(tokenIndex, first)
    ensures WellOrdered(IndexAll(tokenIndex, Counted(records), first), first + |records|)
  {
    CountedDistinct(records);
    IndexAllOrdered(tokenIndex, Counted(records), first);
  }

  /** What each posting of a list reads back as, in order. */
  function Parsed(postings: seq<string>): (r: seq<Option<(nat, nat)>>)
    ensures |r| == |postings|
  {
    if postings == [] then []
    else Parsed(postings[..|postings| - 1]) + [ParsePosting(postings[|postings| - 1])]
  }

  lemma {:induction false} ParsedSnoc(postings: seq<string>, p: string)
    ensures Parsed(postings + [p]) == Parsed(postings) + [ParsePosting(p)]
  {
    assert (postings + [p])[..|postings|] == postings;
  }

  /** Some posting of the list reads back as document d with count c. */
  predicate Listed(postings: seq<string>, d: nat, c: nat)
  {
    Some((d, c)) in Parsed(postings)
  }

  /** Indexing one document lists (d, c) under t exactly when it was listed before, or d is
      the document and t occurs in it c times. */
  lemma {:induction false} AddDocumentListed(tokenIndex: map<string, seq<string>>, items: seq<Item>, docIndex: nat,
                                             t: string, d: nat, c: nat)
    requires DistinctWords(items)
    ensures Listed(Postings(AddDocument(tokenIndex, items, docIndex), t), d, c) <==>
            Listed(Postings(tokenIndex, t), d, c) || (d == docIndex && (t, c) in items)
  {
    var before, after := Postings(tokenIndex, t), Postings(AddDocument(tokenIndex, items, docIndex), t);
    AddDocumentPostings(tokenIndex, items, docIndex, t);
    if k :| 0 <= k < |items| && items[k].0 == t {
      var p := after[|before|];
      assert after == before + [p];
      ParsedSnoc(before, p);
      if (t, c) in items {
        var j :| 0 <= j < |items| && items[j] == (t, c);
        assert j == k;
      }
    } else {
      assert (t, c) !in items by {
        forall j | 0 <= j < |items| ensures items[j] != (t, c) {
          assert items[j].0 != t;
        }
      }
    }
  }

  /** Indexing documents in order lists (d, c) under t exactly when it was listed before, or
      d is the id of one of the documents and t occurs in it c times. */
  lemma {:induction false} IndexAllListed(tokenIndex: map<string, seq<string>>, docs: seq<seq<Item>>,
                                          first: nat, t: string, d: nat, c: nat)
    requires forall k :: 0 <= k < |docs| ==> DistinctWords(docs[k])
    ensures Listed(Postings(IndexAll(tokenIndex, docs, first), t), d, c) <==>
            Listed(Postings(tokenIndex, t), d, c) || (first <= d < first + |docs| && (t, c) in docs[d - first])
  {
    if docs != [] {
      var init, last := docs[..|docs| - 1], docs[|docs| - 1];
      IndexAllListed(tokenIndex, init, first, t, d, c);
      ListedStep(tokenIndex, init, last, first, t, d, c);
      LastSplit(docs);
    }
  }

  lemma {:induction false} ListedStep(tokenIndex: map<string, seq<string>>, docs: seq<seq<Item>>,
                                      items: seq<Item>, first: nat, t: string, d: nat, c: nat)
    requires DistinctWords(items)
    requires Listed(Postings(IndexAll(tokenIndex, docs, first), t), d, c) <==>
             Listed(Postings(tokenIndex, t), d, c) || (first <= d < first + |docs| && (t, c) in docs[d - first])
    ensures Listed(Postings(IndexAll(tokenIndex, docs + [items], first), t), d, c) <==>
            Listed(Postings(tokenIndex, t), d, c) ||
            (first <= d < first + |docs| + 1 && (t, c) in (docs + [items])[d - first])
  {
    IndexAllSnoc(tokenIndex, docs, items, first);
    AddDocumentListed(IndexAll(tokenIndex, docs, first), items, first + |docs|, t, d, c);
  }

  lemma {:induction false} CountedAt(records: seq<Record>, k: nat)
    requires k < |records|
    ensures Counted(records)[k] == Tally(Kept(records[k].1))
  {
    var init := records[..|records| - 1];
    if k < |init| {
      CountedAt(init, k);
    }
  }

  /** A word with its count is among the items of a document exactly when the document
      holds the word that many times. */
  lemma {:induction false} TallyHas(kept: seq<string>, t: string, c: nat)
    ensures (t, c) in Tally(kept) <==> t in Frequencies(kept) && Frequencies(kept)[t] == c
  {
    TallyIsFrequencies(kept);
    var items := Tally(kept);
    if t in Frequencies(kept) && Frequencies(kept)[t] == c {
      var k :| 0 <= k < |items| && items[k].0 == t;
      assert items[k] == (t, c);
    }
  }

  /** Indexing records in order lists (d, c) under t exactly when it was listed before, or
      d is the id of one of the records and t is among that record's items with count c. */
  lemma {:induction false} RecordsListed(tokenIndex: map<string, seq<string>>, records: seq<Record>, first: nat,
                                         t: string, d: nat, c: nat)
    ensures Listed(Postings(IndexAll(tokenIndex, Counted(records), first), t), d, c) <==>
            Listed(Postings(tokenIndex, t), d, c) ||
            (first <= d < first + |records| && (t, c) in Counted(records)[d - first])
  {
    CountedDistinct(records);
    IndexAllListed(tokenIndex, Counted(records), first, t, d, c);
  }

  /** Record k's items hold (t, c) exactly when record k holds the word t c times. */
  lemma {:induction false} CountedHas(records: seq<Record>, k: nat, t: string, c: nat)
    requires k < |records|
    ensures (t, c) in Counted(records)[k] <==>
            t in Frequencies(Kept(records[k].1)) && Frequencies(Kept(records[k].1))[t] == c
  {
    CountedAt(records, k);
    TallyHas(Kept(records[k].1), t, c);
  }

  lemma {:induction false} NothingListed(t: string, d: nat, c: nat)
    ensures !Listed(Postings(map[], t), d, c)
  {
  }

  /** The index answers its queries: after indexing records with ids 1, 2, ... into an empty
      index, the postings of t hold "d@c" exactly when record d holds the word t c times. */
  lemma {:induction false} IndexFindsDocuments(records: seq<Record>, t: string, d: nat, c: nat)
    ensures Listed(Postings(IndexAll(map[], Counted(records), 1), t), d, c) <==>
            1 <= d <= |records| && t in Frequencies(Kept(records[d - 1].1))
              && Frequencies(Kept(records[d - 1].1))[t] == c
  {
    RecordsListed(map[], records, 1, t, d, c);
    NothingListed(t, d, c);
    if 1 <= d <= |records| {
      CountedHas(records, d - 1, t, c);
    }
  }

  lemma {:induction false} IndexAllAppend(tokenIndex: map<string, seq<string>>, docs: seq<seq<Item>>,
                                          more: seq<seq<Item>>, first: nat)
    ensures IndexAll(tokenIndex, docs + more, first)
         == IndexAll(IndexAll(tokenIndex, docs, first), more, first + |docs|)
    decreases |more|
  {
    if more == [] {
      assert docs + more == docs;
    } else {
      var init, last := more[..|more| - 1], more[|more| - 1];
      IndexAllAppend(tokenIndex, docs, init, first);
      AppendStep(tokenIndex, docs, init, last, first);
      LastSplit(more);
    }
  }

  lemma {:induction false} AppendStep(tokenIndex: map<string, seq<string>>, docs: seq<seq<Item>>,
                                      more: seq<seq<Item>>, items: seq<Item>, first: nat)
    requires IndexAll(tokenIndex, docs + more, first) == IndexAll(IndexAll(tokenIndex, docs, first), more, first + |docs|)
    ensures IndexAll(tokenIndex, docs + (more + [items]), first)
         == IndexAll(IndexAll(tokenIndex, docs, first), more + [items], first + |docs|)
  {
    SnocAfter(tokenIndex, docs, more, items, first);
    IndexAllSnoc(IndexAll(tokenIndex, docs, first), more, items, first + |docs|);
  }

  lemma {:induction false} SnocAfter(tokenIndex: map<string, seq<string>>, docs: seq<seq<Item>>,
                                     more: seq<seq<Item>>, items: seq<Item>, first: nat)
    ensures IndexAll(tokenIndex, docs + (more + [items]), first)
         == AddDocument(IndexAll(tokenIndex, docs + more, first), items, first + |docs| + |more|)
  {
    assert docs + (more + [items]) == (docs + more) + [items];
    IndexAllSnoc(tokenIndex, docs + more, items, first);
  }

  /** docIndexMapping entries for records given ids first, first + 1, ...: each record's id
      maps to its name. */
  function Ids(records: seq<Record>, first: nat): map<nat, string>
  {
    if records == [] then map[]
    else Ids(records[..|records| - 1], first)[first + |records| - 1 := records[|records| - 1].0]
  }

  /** The ids are exactly first, ..., first + |records| - 1, each mapped to its record's name. */
  lemma {:induction false} IdsEntries(records: seq<Record>, first: nat)
    ensures forall k :: k in Ids(records, first) <==> first <= k < first + |records|
    ensures forall k :: k in Ids(records, first) ==> Ids(records, first)[k] == records[k - first].0
  {
    if records != [] {
      var init := records[..|records| - 1];
      IdsEntries(init, first);
      forall k | k in Ids(init, first) ensures init[k - first] == records[k - first] { }
    }
  }

  /** index_data on the fresh docIndexMapping of the script: over all records in order, the
      keys are exactly 1, ..., N and id k names record k. */
  lemma {:induction false} FreshIds(files: seq<seq<Record>>)
    ensures var records := Flatten(files);
            var mapping := map[] + Ids(records, 1);
            (forall k :: k in mapping <==> 1 <= k <= |records|) &&
            (forall k :: k in mapping ==> mapping[k] == records[k - 1].0)
  {
    var records := Flatten(files);
    IdsEntries(records, 1);
    assert map[] + Ids(records, 1) == Ids(records, 1);
  }

  lemma {:induction false} IdsSnoc(records: seq<Record>, r: Record, first: nat)
    ensures Ids(records + [r], first) == Ids(records, first)[first + |records| := r.0]
  {
    assert (records + [r])[..|records|] == records;
  }

  lemma {:induction false} IdsAppend(records: seq<Record>, more: seq<Record>, first: nat)
    ensures Ids(records + more, first) == Ids(records, first) + Ids(more, first + |records|)
  {
    var l, r := Ids(records + more, first), Ids(records, first) + Ids(more, first + |records|);
    IdsEntries(records + more, first);
    IdsEntries(records, first);
    IdsEntries(more, first + |records|);
    assert l.Keys == r.Keys;
    forall k | k in l ensures l[k] == r[k] {
      if k < first + |records| {
        assert (records + more)[k - first] == records[k - first];
      } else {
        assert (records + more)[k - first] == more[k - first - |records|];
      }
    }
  }

  lemma {:induction false} UnionAssociative(a: map<nat, string>, b: map<nat, string>, c: map<nat, string>)
    ensures (a + b) + c == a + (b + c)
  {
    var l, r := (a + b) + c, a + (b + c);
    assert l.Keys == r.Keys;
  }

  /** The names of one more shard's records join the mapping under the ids that follow. */
  lemma {:induction false} ShardIds(mapping: map<nat, string>, done: seq<Record>, data: seq<Record>)
    ensures mapping + Ids(done + data, 1) == (mapping + Ids(done, 1)) + Ids(data, |done| + 1)
  {
    IdsAppend(done, data, 1);
    UnionAssociative(mapping, Ids(done, 1), Ids(data, |done| + 1));
  }

  /** Indexing one more shard's records continues the index from the ids that follow. */
  lemma {:induction false} ShardIndex(tokenIndex: map<string, seq<string>>, done: seq<Record>, data: seq<Record>)
    ensures IndexAll(tokenIndex, Counted(done + data), 1)
         == IndexAll(IndexAll(tokenIndex, Counted(done), 1), Counted(data), |done| + 1)
  {
    CountedAppend(done, data);
    IndexAllAppend(tokenIndex, Counted(done), Counted(data), 1);
  }

  lemma {:induction false} FlattenPrefix<T>(files: seq<seq<T>>, f: nat)
    requires f < |files|
    ensures Flatten(files[..f + 1]) == Flatten(files[..f]) + files[f]
  {
    assert files[..f + 1] == files[..f] + [files[f]];
    FlattenSnoc(files[..f], files[f]);
  }

  lemma {:induction false} UnionUpdate(earlier: map<nat, string>, ids: map<nat, string>, k: nat, name: string)
    ensures (earlier + ids)[k := name] == earlier + ids[k := name]
  {
    var l, r := (earlier + ids)[k := name], earlier + ids[k := name];
    assert l.Keys == r.Keys;
  }

  /** Indexing one more record of a shard gives the next id to its name. */
  lemma {:induction false} RecordIds(mapping: map<nat, string>, data: seq<Record>, r: nat, first: nat)
    requires r < |data|
    ensures mapping + Ids(data[..r + 1], first) == (mapping + Ids(data[..r], first))[first + r := data[r].0]
  {
    PrefixSnoc(data, r);
    IdsSnoc(data[..r], data[r], first);
    UnionUpdate(mapping, Ids(data[..r], first), first + r, data[r].0);
  }

  /** Indexing one more document indexes its items under the next id. */
  lemma {:induction false} RecordIndex(tokenIndex: map<string, seq<string>>, docs: seq<seq<Item>>,
                                       r: nat, first: nat)
    requires r < |docs|
    ensures IndexAll(tokenIndex, docs[..r + 1], first)
         == AddDocument(IndexAll(tokenIndex, docs[..r], first), docs[r], first + r)
  {
    PrefixSnoc(docs, r);
    IndexAllSnoc(tokenIndex, docs[..r], docs[r], first);
  }

  /** The index built by index_document and index_data (the module-level globals). */
  class SearchIndex {
    var tokenIndex: map<string, seq<string>>
    var docIndexMapping: map<nat, string>

    constructor ()
      ensures tokenIndex == map[] && docIndexMapping == map[]
    {
      tokenIndex := map[];
      docIndexMapping := map[];
    }

    /** Indexes one document given the words of its visible text. */
    method IndexDocument(docName: string, tokens: seq<string>, docIndex: nat)
      modifies this
      ensures docIndexMapping == old(docIndexMapping)[docIndex := docName]
      ensures tokenIndex == AddDocument(old(tokenIndex), Tally(Kept(tokens)), docIndex)
    {
      docIndexMapping := docIndexMapping[docIndex := docName];
      var tokenFreq, tokenOrder := CountTokens(tokens);
      ghost var kept := Kept(tokens);
      ghost var items := Tally(kept);
      for j := 0 to |tokenOrder|
        invariant tokenIndex == AddDocument(old(tokenIndex), items[..j], docIndex)
        invariant docIndexMapping == old(docIndexMapping)[docIndex := docName]
      {
        var token := tokenOrder[j];
        TallyStep(kept, j);
        tokenIndex := tokenIndex[token := Postings(tokenIndex, token) + [Posting(docIndex, tokenFreq[token])]];
      }
      assert items[..|tokenOrder|] == items;
    }

    /** The inner loop of index_data: indexes the records of one shard, in order, with ids
        first, first + 1, ..., and returns the next id. */
    method IndexFile(data: seq<Record>, first: nat) returns (next: nat)
      modifies this
      ensures next == first + |data|
      ensures docIndexMapping == old(docIndexMapping) + Ids(data, first)
      ensures tokenIndex == IndexAll(old(tokenIndex), Counted(data), first)
    {
      var docIndex := first;
      for r := 0 to |data|
        invariant docIndex == first + r
        invariant docIndexMapping == old(docIndexMapping) + Ids(data[..r], first)
        invariant tokenIndex == IndexAll(old(tokenIndex), Counted(data)[..r], first)
      {
        RecordIds(old(docIndexMapping), data, r, first);
        RecordIndex(old(tokenIndex), Counted(data), r, first);
        CountedAt(data, r);
        IndexDocument(data[r].0, data[r].1, docIndex);
        docIndex := docIndex + 1;
      }
      assert data[..|data|] == data;
      assert Counted(data)[..|data|] == Counted(data);
      next := docIndex;
    }

    /** index_data: indexes the records of every shard, in order, with ids 1, 2, ... */
    method IndexData(files: seq<seq<Record>>)
      modifies this
      ensures docIndexMapping == old(docIndexMapping) + Ids(Flatten(files), 1)
      ensures tokenIndex == IndexAll(old(tokenIndex), Counted(Flatten(files)), 1)
    {
      var docIndex := 1;
      for f := 0 to |files|
        invariant docIndex == |Flatten(files[..f])| + 1
        invariant docIndexMapping == old(docIndexMapping) + Ids(Flatten(files[..f]), 1)
        invariant tokenIndex == IndexAll(old(tokenIndex), Counted(Flatten(files[..f])), 1)
      {
        FlattenPrefix(files, f);
        ShardIds(old(docIndexMapping), Flatten(files[..f]), files[f]);
        ShardIndex(old(tokenIndex), Flatten(files[..f]), files[f]);
        docIndex := IndexFile(files[f], docIndex);
      }
      assert files[..|files|] == files;
    }
  }
}
