/**
 * The pattern learner (`app/services/pattern_learner.py`). The Redis hashes
 * and lists it keeps become maps in a `Store`: the per-day interaction
 * batches, the per-(domain, data type) success patterns, the per-domain
 * error logs and the per-domain knowledge. A schema enters as the list of
 * its field names, in the order of the JSON object they came from.
 */
module PatternLearner {
  import opened Base

  datatype DataType = Ecommerce | News | Weather | Jobs | General

  function DataTypeName(t: DataType): string
  {
    match t
    case Ecommerce => "ecommerce"
    case News => "news"
    case Weather => "weather"
    case Jobs => "jobs"
    case General => "general"
  }

  const EcommerceWords: seq<string> := ["price", "cost", "availability", "stock"]
  const NewsWords: seq<string> := ["article", "content", "author", "publish"]
  const WeatherWords: seq<string> := ["temperature", "weather", "humidity", "wind"]
  const JobsWords: seq<string> := ["job", "salary", "experience", "company"]

  /** One of the words is in the set of lower-cased names. */
  predicate HasWord(names: set<string>, words: seq<string>)
  {
    exists w :: w in words && w in names
  }

  /** Some field name, lower-cased, is exactly one of the words. */
  predicate Mentions(fields: seq<string>, words: seq<string>)
  {
    exists k :: 0 <= k < |fields| && Lower(fields[k]) in words
  }

  /**
   * `_classify_data_type`: the first rule one of whose words is exactly a
   * lower-cased field name; `General` when none is.
   */
  function Classify(fields: seq<string>): (t: DataType)
    ensures t == Ecommerce <==> Mentions(fields, EcommerceWords)
    ensures t == News <==> !Mentions(fields, EcommerceWords) && Mentions(fields, NewsWords)
    ensures t == Weather <==> !Mentions(fields, EcommerceWords) && !Mentions(fields, NewsWords)
                              && Mentions(fields, WeatherWords)
    ensures t == Jobs <==> !Mentions(fields, EcommerceWords) && !Mentions(fields, NewsWords)
                           && !Mentions(fields, WeatherWords) && Mentions(fields, JobsWords)
    ensures fields == [] ==> t == General
  {
    var names := set k | 0 <= k < |fields| :: Lower(fields[k]);
    MentionsNames(fields, EcommerceWords, names);
    MentionsNames(fields, NewsWords, names);
    MentionsNames(fields, WeatherWords, names);
    MentionsNames(fields, JobsWords, names);
    if HasWord(names, EcommerceWords) then Ecommerce
    else if HasWord(names, NewsWords) then News
    else if HasWord(names, WeatherWords) then Weather
    else if HasWord(names, JobsWords) then Jobs
    else General
  }

  lemma MentionsNames(fields: seq<string>, words: seq<string>, names: set<string>)
    requires names == set k | 0 <= k < |fields| :: Lower(fields[k])
    ensures Mentions(fields, words) <==> HasWord(names, words)
  {
    if HasWord(names, words) {
      var w :| w in words && w in names;
      var k :| 0 <= k < |fields| && Lower(fields[k]) == w;
    }
  }

  /** Matching is on whole names: a field called "prices" does not make a schema e-commerce. */
  lemma ClassifyIsExact()
    ensures Classify(["Price"]) == Ecommerce
    ensures Classify(["prices"]) == General
  {
    assert Lower("Price") == "price";
    assert Lower(["Price"][0]) in EcommerceWords;
    assert Lower("prices") == "prices";
    assert !Mentions(["prices"], EcommerceWords);
    assert !Mentions(["prices"], NewsWords);
    assert !Mentions(["prices"], WeatherWords);
    assert !Mentions(["prices"], JobsWords);
  }

  /** The common fields of the cached patterns, by data type name. */
  function CachedFields(t: DataType): seq<string>
  {
    match t
    case Ecommerce => ["title", "price", "description", "availability", "rating", "image"]
    case News => ["title", "content", "author", "date", "category", "tags"]
    case Weather => ["temperature", "humidity", "wind_speed", "conditions", "forecast"]
    case _ => []
  }

  /** The pattern cache, looked up by data type name; only three types have an entry. */
  function PatternFields(dataType: string): seq<string>
  {
    if dataType == "ecommerce" then CachedFields(Ecommerce)
    else if dataType == "news" then CachedFields(News)
    else if dataType == "weather" then CachedFields(Weather)
    else []
  }

  lemma PatternFieldsOfType(t: DataType)
    ensures PatternFields(DataTypeName(t)) == CachedFields(t)
    ensures CachedFields(t) != [] <==> t in {Ecommerce, News, Weather}
  {
  }

  const LearningThreshold := 5
  const GroupThreshold := 3
  const SampledSuccesses := 3
  const ErrorLogSize := 100

  // ---------------------------------------------------------------------
  // Domain knowledge
  // ---------------------------------------------------------------------

  /**
   * A domain knowledge hash as `_get_domain_knowledge` returns it once the
   * JSON, flag and number fields are parsed; absent keys are `None`, `[]`
   * or false.
   */
  datatype Knowledge = Knowledge(
    commonFields: seq<string>,
    avgSuccessRate: Option<real>,
    sampleCount: nat,
    maxConcurrent: Option<int>,
    retryStrategy: bool,
    requiresJavascript: bool,
    hasPagination: bool,
    hasAntiScraping: bool,
    optimalDelay: Option<real>,
    lastUpdated: Option<int>)

  const NoKnowledge := Knowledge([], None, 0, None, false, false, false, false, None, None)

  /**
   * The weighted mean of two success rates by their sample counts, as
   * `_update_domain_knowledge` forms it.
   */
  function WeightedMerge(oldRate: real, oldCount: nat, newRate: real, newCount: nat): (r: real)
    requires oldCount + newCount > 0
    ensures oldCount == 0 ==> r == newRate
    ensures newCount == 0 ==> r == oldRate
    ensures oldRate <= newRate ==> oldRate <= r <= newRate
    ensures newRate <= oldRate ==> newRate <= r <= oldRate
  {
    var total := (oldCount + newCount) as real;
    var r := (oldRate * oldCount as real + newRate * newCount as real) / total;
    var f := newCount as real / total;
    assert r == oldRate + (newRate - oldRate) * f by {
      assert f * total == newCount as real;
      assert r * total == oldRate * oldCount as real + newRate * newCount as real;
      assert oldCount as real == total - newCount as real;
    }
    assert oldCount == 0 ==> f == 1.0;
    assert newCount == 0 ==> f == 0.0;
    assert 0.0 <= f <= 1.0;
    BetweenByFraction(oldRate, newRate, f, r);
    r
  }

  /** A point a fraction of the way from `a` to `b` lies between them. */
  lemma BetweenByFraction(a: real, b: real, f: real, r: real)
    requires 0.0 <= f <= 1.0 && r == a + (b - a) * f
    ensures a <= b ==> a <= r <= b
    ensures b <= a ==> b <= r <= a
  {
    var d := b - a;
    var p := d * f;
    assert r == a + p;
    MulBetween(d, f);
    if a <= b { assert 0.0 <= p <= d; } else { assert d <= p <= 0.0; }
  }

  lemma MulBetween(d: real, f: real)
    requires 0.0 <= f <= 1.0
    ensures d >= 0.0 ==> 0.0 <= d * f <= d
    ensures d <= 0.0 ==> d <= d * f <= 0.0
  {
  }

  /** Two merges in a row give the weighted mean of all three samples. */
  lemma {:induction false} MergeTwice(a: real, m: nat, b: real, n: nat, c: real, k: nat)
    requires m + n > 0
    ensures WeightedMerge(WeightedMerge(a, m, b, n), m + n, c, k)
            == (a * m as real + b * n as real + c * k as real) / (m + n + k) as real
  {
    var ab := WeightedMerge(a, m, b, n);
    assert ab * (m + n) as real == a * m as real + b * n as real;
  }

  /** Merging a 0.8 rate over 10 samples with a 0.4 rate over 5 gives 2/3. */
  lemma MergeExample()
    ensures WeightedMerge(0.8, 10, 0.4, 5) == 2.0 / 3.0
  {
  }

  /** What `_process_learning_batch` hands to `_update_domain_knowledge` for one group. */
  datatype KnowledgeUpdate = KnowledgeUpdate(
    domain: string, dataType: string, successRate: real, commonFields: seq<string>, sampleSize: nat)

  /**
   * `_update_domain_knowledge`: the field lists are united, the success
   * rate is merged by sample counts, and the update time is set; the other
   * keys of the hash are kept.
   */
  function UpdateKnowledge(existing: Option<Knowledge>, u: KnowledgeUpdate, now: int): (k: Knowledge)
    requires u.sampleSize > 0
    ensures forall f :: f in k.commonFields <==> f in existing.GetOr(NoKnowledge).commonFields || f in u.commonFields
    ensures NoDup(k.commonFields)
    ensures k.sampleCount == existing.GetOr(NoKnowledge).sampleCount + u.sampleSize
    ensures k.avgSuccessRate.Some?
    ensures existing.None? ==> k.avgSuccessRate == Some(u.successRate)
    ensures var prev := existing.GetOr(NoKnowledge);
            k.avgSuccessRate == Some(WeightedMerge(prev.avgSuccessRate.GetOr(0.0), prev.sampleCount, u.successRate, u.sampleSize))
    ensures k.lastUpdated == Some(now)
    ensures k.maxConcurrent == existing.GetOr(NoKnowledge).maxConcurrent
    ensures k.requiresJavascript == existing.GetOr(NoKnowledge).requiresJavascript
    ensures k.optimalDelay == existing.GetOr(NoKnowledge).optimalDelay
  {
    var prev := existing.GetOr(NoKnowledge);
    var fields := AppendNew([], prev.commonFields + u.commonFields);
    var rate := WeightedMerge(prev.avgSuccessRate.GetOr(0.0), prev.sampleCount, u.successRate, u.sampleSize);
    prev.(commonFields := fields, avgSuccessRate := Some(rate), sampleCount := prev.sampleCount + u.sampleSize,
         lastUpdated := Some(now))
  }

  /**
   * Two updates in a row leave the mean of the stored rate and both new
   * rates, each weighted by its sample count.
   */
  lemma UpdateKnowledgeTwice(existing: Knowledge, u1: KnowledgeUpdate, u2: KnowledgeUpdate, t1: int, t2: int)
    requires existing.avgSuccessRate.Some? && u1.sampleSize > 0 && u2.sampleSize > 0
    ensures var k := UpdateKnowledge(Some(UpdateKnowledge(Some(existing), u1, t1)), u2, t2);
            k.sampleCount == existing.sampleCount + u1.sampleSize + u2.sampleSize
    ensures var k := UpdateKnowledge(Some(UpdateKnowledge(Some(existing), u1, t1)), u2, t2);
            var a := existing.avgSuccessRate.value;
            var m := existing.sampleCount;
            k.avgSuccessRate.Some? && k.avgSuccessRate.value == (a * m as real + u1.successRate * u1.sampleSize as real + u2.successRate * u2.sampleSize as real)
                                     / (m + u1.sampleSize + u2.sampleSize) as real
  {
    var a, m := existing.avgSuccessRate.value, existing.sampleCount;
    var k1 := UpdateKnowledge(Some(existing), u1, t1);
    var ab := WeightedMerge(a, m, u1.successRate, u1.sampleSize);
    assert k1.avgSuccessRate == Some(ab) && k1.sampleCount == m + u1.sampleSize;
    var k := UpdateKnowledge(Some(k1), u2, t2);
    assert k.avgSuccessRate == Some(WeightedMerge(ab, m + u1.sampleSize, u2.successRate, u2.sampleSize));
    MergeTwice(a, m, u1.successRate, u1.sampleSize, u2.successRate, u2.sampleSize);
  }

  // ---------------------------------------------------------------------
  // Interaction batches
  // ---------------------------------------------------------------------

  /** One learning record: the context's URLs and schema field names, and whether the reply succeeded. */
  datatype Interaction = Interaction(urls: seq<string>, fields: seq<string>, success: bool)

  /** The record `learn_from_interaction` stores for a reply with the given status. */
  function MakeInteraction(urls: seq<string>, fields: seq<string>, status: string): (i: Interaction)
    ensures i.success <==> status == "success"
    ensures i.urls == urls && i.fields == fields
  {
    Interaction(urls, fields, status == "success")
  }

  predicate Eligible(i: Interaction)
  {
    |i.urls| > 0 && |i.fields| > 0
  }

  function GroupKey(i: Interaction): (string, DataType)
    requires Eligible(i)
  {
    (ExtractDomain(i.urls[0]), Classify(i.fields))
  }

  /** The interactions of the batch with URLs and a schema whose key is `key`, in batch order. */
  function Members(batch: seq<Interaction>, key: (string, DataType)): (g: seq<Interaction>)
    ensures |g| <= |batch|
    ensures forall i :: i in g <==> i in batch && Eligible(i) && GroupKey(i) == key
  {
    if batch == [] then []
    else
      (if Eligible(batch[0]) && GroupKey(batch[0]) == key then [batch[0]] else []) + Members(batch[1..], key)
  }

  /** The distinct group keys, in order of first appearance (the order of the grouping dictionary). */
  function KeysOf(batch: seq<Interaction>): (keys: seq<(string, DataType)>)
    ensures NoDup(keys)
    ensures forall key :: key in keys <==> exists i :: i in batch && Eligible(i) && GroupKey(i) == key
  {
    var all := seq(|batch|, k requires 0 <= k < |batch| => batch[k]);
    assert all == batch;
    AppendNew([], EligibleKeys(batch))
  }

  function EligibleKeys(batch: seq<Interaction>): (ks: seq<(string, DataType)>)
    ensures forall key :: key in ks <==> exists i :: i in batch && Eligible(i) && GroupKey(i) == key
  {
    if batch == [] then []
    else
      var rest := EligibleKeys(batch[1..]);
      assert forall i :: i in batch <==> i == batch[0] || i in batch[1..];
      (if Eligible(batch[0]) then [GroupKey(batch[0])] else []) + rest
  }

  function CountSuccesses(g: seq<Interaction>): (n: nat)
    ensures n <= |g|
  {
    if g == [] then 0 else (if g[0].success then 1 else 0) + CountSuccesses(g[1..])
  }

  /** Every field name of every interaction of the group, in order, as `all_fields` collects them. */
  function AllFields(g: seq<Interaction>): seq<string>
  {
    if g == [] then [] else g[0].fields + AllFields(g[1..])
  }

  /** The names that appear at least half as often as the group is large, in first-appearance order. */
  function FrequentFields(names: seq<string>, all: seq<string>, groupSize: nat): (r: seq<string>)
    ensures forall f :: f in r <==> f in names && 2 * Count(all, f) >= groupSize
    ensures NoDup(names) ==> NoDup(r)
  {
    if names == [] then []
    else
      var rest := FrequentFields(names[1..], all, groupSize);
      assert NoDup(names) ==> NoDup(names[1..]) && names[0] !in names[1..] by {
        if NoDup(names) {
          forall i, j | 0 <= i < j < |names[1..]| ensures names[1..][i] != names[1..][j] {
            assert names[1..][i] == names[i + 1] && names[1..][j] == names[j + 1];
          }
          forall i | 0 <= i < |names[1..]| ensures names[1..][i] != names[0] { assert names[1..][i] == names[i + 1]; }
        }
      }
      if 2 * Count(all, names[0]) >= groupSize then [names[0]] + rest else rest
  }

  /** The statistics of one group of at least three interactions. */
  function Summarise(key: (string, DataType), g: seq<Interaction>, domain: string): (u: KnowledgeUpdate)
    requires |g| > 0
    ensures u.domain == domain && u.sampleSize == |g| && u.dataType == DataTypeName(key.1)
    ensures u.successRate == Rate(CountSuccesses(g), |g|)
    ensures forall f :: f in u.commonFields <==> f in AllFields(g) && 2 * Count(AllFields(g), f) >= |g|
    ensures NoDup(u.commonFields)
  {
    var all := AllFields(g);
    var names := AppendNew([], all);
    assert NoDup(names) && forall f :: f in names <==> f in all;
    KnowledgeUpdate(domain, DataTypeName(key.1), Rate(CountSuccesses(g), |g|), FrequentFields(names, all, |g|), |g|)
  }

  /** The fraction of successes: between 0 and 1, and exactly the count when scaled back. */
  function Rate(successes: nat, size: nat): (r: real)
    requires 0 < size && successes <= size
    ensures 0.0 <= r <= 1.0
    ensures r * size as real == successes as real
  {
    successes as real / size as real
  }

  /** `u` is the summary of the group with key `key`, which has at least three members. */
  predicate Summarises(batch: seq<Interaction>, key: (string, DataType), u: KnowledgeUpdate)
  {
    |Members(batch, key)| >= GroupThreshold && u == Summarise(key, Members(batch, key), key.0)
  }

  /** A group large enough to learn from. */
  predicate Frequent(batch: seq<Interaction>, key: (string, DataType))
  {
    |Members(batch, key)| >= GroupThreshold
  }

  /** The keys, in their order, whose group has at least three members. */
  function FrequentKeys(batch: seq<Interaction>, keys: seq<(string, DataType)>): (r: seq<(string, DataType)>)
    ensures forall key :: key in r <==> key in keys && Frequent(batch, key)
  {
    if keys == [] then []
    else
      var rest := FrequentKeys(batch, keys[1..]);
      assert forall key :: key in keys <==> key == keys[0] || key in keys[1..];
      if Frequent(batch, keys[0]) then [keys[0]] + rest else rest
  }

  /** The update of a group with at least three members. */
  function UpdateOf(batch: seq<Interaction>, key: (string, DataType)): KnowledgeUpdate
    requires Frequent(batch, key)
  {
    Summarise(key, Members(batch, key), key.0)
  }

  /** Each frequent key mapped to its group's update, in order. */
  function UpdatesOfKeys(batch: seq<Interaction>, ks: seq<(string, DataType)>): (r: seq<KnowledgeUpdate>)
    requires forall key :: key in ks ==> Frequent(batch, key)
    ensures |r| == |ks| && forall i :: 0 <= i < |ks| ==> r[i] == UpdateOf(batch, ks[i])
  {
    if ks == [] then [] else [UpdateOf(batch, ks[0])] + UpdatesOfKeys(batch, ks[1..])
  }

  /** Different group keys give different updates: the domain and the type name tell them apart. */
  lemma UpdateOfDistinct(batch: seq<Interaction>, k1: (string, DataType), k2: (string, DataType))
    requires Frequent(batch, k1) && Frequent(batch, k2) && k1 != k2
    ensures UpdateOf(batch, k1) != UpdateOf(batch, k2)
  {
    if k1.0 == k2.0 {
      assert DataTypeName(k1.1) != DataTypeName(k2.1) by {
        match k1.1
        case Ecommerce => assert "ecommerce"[0] == 'e';
        case News => assert "news"[0] == 'n';
        case Weather => assert "weather"[0] == 'w';
        case Jobs => assert "jobs"[0] == 'j';
        case General => assert "general"[0] == 'g';
      }
    }
  }

  /**
   * `_process_learning_batch`: one knowledge update per group of at least
   * three interactions, in the order the groups first appear, each filed
   * under the group's own domain.
   */
  function BatchUpdates(batch: seq<Interaction>): (us: seq<KnowledgeUpdate>)
    ensures |us| <= |KeysOf(batch)|
    ensures forall u :: u in us ==> exists key :: key in KeysOf(batch) && Summarises(batch, key, u)
    ensures forall u :: u in us ==> u.sampleSize >= GroupThreshold
    ensures forall key :: key in KeysOf(batch) && |Members(batch, key)| >= GroupThreshold ==>
              Summarise(key, Members(batch, key), key.0) in us
    ensures us == UpdatesOfKeys(batch, FrequentKeys(batch, KeysOf(batch)))
    ensures NoDup(us)
  {
    var keys := KeysOf(batch);
    var us := UpdatesFor(batch, keys);
    assert NoDup(us) by { UpdatesForNoDup(batch, keys); }
    assert us == UpdatesOfKeys(batch, FrequentKeys(batch, keys)) by { UpdatesForExact(batch, keys); }
    us
  }

  function UpdatesFor(batch: seq<Interaction>, keys: seq<(string, DataType)>): (us: seq<KnowledgeUpdate>)
    ensures |us| <= |keys|
    ensures forall u :: u in us ==> exists key :: key in keys && Summarises(batch, key, u)
    ensures forall u :: u in us ==> u.sampleSize >= GroupThreshold
    ensures forall key :: key in keys && |Members(batch, key)| >= GroupThreshold ==>
              Summarise(key, Members(batch, key), key.0) in us
  {
    if keys == [] then []
    else
      var rest := UpdatesFor(batch, keys[1..]);
      var g := Members(batch, keys[0]);
      assert forall key :: key in keys[1..] ==> key in keys;
      assert forall key :: key in keys ==> key == keys[0] || key in keys[1..];
      if |g| >= GroupThreshold then
        assert Summarises(batch, keys[0], Summarise(keys[0], g, keys[0].0));
        [Summarise(keys[0], g, keys[0].0)] + rest
      else rest
  }

  /** One step of the loop over the groups: a frequent first key gives the first update. */
  lemma UpdatesForStep(batch: seq<Interaction>, keys: seq<(string, DataType)>)
    requires keys != []
    ensures UpdatesFor(batch, keys) ==
            (if Frequent(batch, keys[0]) then [UpdateOf(batch, keys[0])] else []) + UpdatesFor(batch, keys[1..])
    ensures FrequentKeys(batch, keys) ==
            (if Frequent(batch, keys[0]) then [keys[0]] else []) + FrequentKeys(batch, keys[1..])
  {
  }

  /** The updates are exactly the frequent keys, in their order, each mapped to its group's update. */
  lemma {:induction false} UpdatesForExact(batch: seq<Interaction>, keys: seq<(string, DataType)>)
    ensures UpdatesFor(batch, keys) == UpdatesOfKeys(batch, FrequentKeys(batch, keys))
  {
    if keys != [] {
      UpdatesForStep(batch, keys);
      UpdatesForExact(batch, keys[1..]);
      var fk := FrequentKeys(batch, keys);
      if Frequent(batch, keys[0]) {
        assert fk[0] == keys[0] && fk[1..] == FrequentKeys(batch, keys[1..]);
      }
    }
  }

  /** Distinct keys give distinct updates. */
  lemma {:induction false} UpdatesForNoDup(batch: seq<Interaction>, keys: seq<(string, DataType)>)
    requires NoDup(keys)
    ensures NoDup(UpdatesFor(batch, keys))
  {
    if keys != [] {
      NoDupTail(keys);
      UpdatesForNoDup(batch, keys[1..]);
      UpdatesForStep(batch, keys);
      if Frequent(batch, keys[0]) {
        var u, rest := UpdateOf(batch, keys[0]), UpdatesFor(batch, keys[1..]);
        forall j | 0 <= j < |rest| ensures rest[j] != u {
          assert rest[j] in rest;
          var key :| key in keys[1..] && Summarises(batch, key, rest[j]);
          UpdateOfDistinct(batch, keys[0], key);
        }
        ConsNoDup(u, rest);
      }
    }
  }

  /** The updates of a joined key list are those of each part in turn. */
  lemma {:induction false} UpdatesForConcat(batch: seq<Interaction>, a: seq<(string, DataType)>, b: seq<(string, DataType)>)
    ensures UpdatesFor(batch, a + b) == UpdatesFor(batch, a) + UpdatesFor(batch, b)
    ensures |a| == 1 ==>
              UpdatesFor(batch, a) == if Frequent(batch, a[0]) then [UpdateOf(batch, a[0])] else []
  {
    if a == [] {
      assert a + b == b;
    } else {
      var ab, t := a + b, a[1..];
      assert ab != [] && ab[0] == a[0] && ab[1..] == t + b;
      UpdatesForConcat(batch, t, b);
      UpdatesForStep(batch, ab);
      UpdatesForStep(batch, a);
      var h := if Frequent(batch, a[0]) then [UpdateOf(batch, a[0])] else [];
      SeqAssoc(h, UpdatesFor(batch, t), UpdatesFor(batch, b));
      if |a| == 1 { assert t == []; }
    }
  }


  /** Every update the batch produces is filed under the domain of the interactions it summarises. */
  lemma BatchFilesUnderOwnDomain(batch: seq<Interaction>, k: nat)
    requires k < |BatchUpdates(batch)|
    ensures exists i :: i in batch && Eligible(i) && ExtractDomain(i.urls[0]) == BatchUpdates(batch)[k].domain
  {
    var us := BatchUpdates(batch);
    assert us[k] in us;
    var key :| key in KeysOf(batch) && Summarises(batch, key, us[k]);
    var i :| i in batch && Eligible(i) && GroupKey(i) == key;
    assert us[k].domain == key.0;
  }

  // ---------------------------------------------------------------------
  // The key as written: "domain:type", split at the first ':'
  // ---------------------------------------------------------------------

  /** The grouping key string of `_process_learning_batch`. */
  function KeyString(domain: string, t: DataType): string
  {
    domain + ":" + DataTypeName(t)
  }

  /** `key.split(":", 1)` on a key that holds a ':'. */
  function SplitKey(key: string): (r: (string, string))
    ensures ':' in key ==> key == r.0 + ":" + r.1 && ':' !in r.0
    ensures ':' !in key ==> r == (key, "")
  {
    var i := Find(key, ':');
    if i < |key| then
      assert key == key[..i] + ":" + key[i + 1..];
      (key[..i], key[i + 1..])
    else (key, "")
  }

  /** No type name holds a ':', so the key string determines the pair: grouping by it is grouping by the pair. */
  lemma KeyStringInjective(d1: string, t1: DataType, d2: string, t2: DataType)
    requires KeyString(d1, t1) == KeyString(d2, t2)
    ensures d1 == d2 && t1 == t2
  {
    var s := KeyString(d1, t1);
    var n1 := |DataTypeName(t1)|;
    var n2 := |DataTypeName(t2)|;
    if n1 == n2 {
      assert DataTypeName(t1) == s[|s| - n1..] == DataTypeName(t2);
      assert d1 == s[..|d1|] == d2;
    } else if n1 < n2 {
      ColonInLongerName(d1, DataTypeName(t1), d2, DataTypeName(t2));
      assert false;
    } else {
      ColonInLongerName(d2, DataTypeName(t2), d1, DataTypeName(t1));
      assert false;
    }
  }

  /** Two "domain:name" strings that are equal with names of different lengths put a ':' in the longer name. */
  lemma ColonInLongerName(d1: string, n1: string, d2: string, n2: string)
    requires d1 + ":" + n1 == d2 + ":" + n2 && |n1| < |n2|
    ensures ':' in n2
  {
    var s := d1 + ":" + n1;
    assert s[|s| - |n1| - 1] == ':';
    assert n2[|n2| - |n1| - 1] == s[|s| - |n1| - 1];
  }

  /** The domain the batch code files a group under, after splitting its key. */
  function DomainAsWritten(domain: string, t: DataType): string
  {
    SplitKey(KeyString(domain, t)).0
  }

  /** A domain with a port (`host:8080`) is filed under the bare host. */
  lemma SplitLosesPort(domain: string, t: DataType)
    requires ':' in domain
    ensures DomainAsWritten(domain, t) != domain
    ensures |DomainAsWritten(domain, t)| < |domain|
  {
    var key := KeyString(domain, t);
    var i := Find(key, ':');
    var j :| 0 <= j < |domain| && domain[j] == ':';
    assert key[j] == ':';
    assert i <= j;
  }

  /** `urlparse` keeps the port in the netloc, so such domains do arise. */
  lemma PortInDomain()
    ensures ExtractDomain("http://h:1/") == "h:1"
  {
    assert "http://h:1/" == "http" + "://" + "h:1" + "/";
    NetlocOfParts("http", "h:1", "/");
  }

  /** `_process_learning_batch` as written: the updates of the batch, with the split domains. */
  function BatchUpdatesAsWritten(batch: seq<Interaction>): (us: seq<KnowledgeUpdate>)
    ensures |us| == |BatchUpdates(batch)|
    ensures forall k :: 0 <= k < |us| ==>
              var key := BatchUpdates(batch)[k].domain + ":" + BatchUpdates(batch)[k].dataType;
              us[k] == BatchUpdates(batch)[k].(domain := SplitKey(key).0, dataType := SplitKey(key).1)
  {
    var us := BatchUpdates(batch);
    seq(|us|, k requires 0 <= k < |us| =>
      var key := us[k].domain + ":" + us[k].dataType;
      us[k].(domain := SplitKey(key).0, dataType := SplitKey(key).1))
  }

  /** The misfiling: as written, an update for a domain with a port lands under another domain. */
  lemma AsWrittenMisfiles(batch: seq<Interaction>, k: nat)
    requires k < |BatchUpdates(batch)| && ':' in BatchUpdates(batch)[k].domain
    ensures BatchUpdatesAsWritten(batch)[k].domain != BatchUpdates(batch)[k].domain
  {
    var u := BatchUpdates(batch)[k];
    assert u in BatchUpdates(batch);
    var key :| key in KeysOf(batch) && Summarises(batch, key, u);
    assert u.domain + ":" + u.dataType == KeyString(key.0, key.1);
    SplitLosesPort(key.0, key.1);
  }

  // ---------------------------------------------------------------------
  // The store
  // ---------------------------------------------------------------------

  datatype PatternEntry = PatternEntry(successCount: nat, lastSuccess: int, fields: seq<string>, extracted: seq<string>)

  datatype ErrorEntry = ErrorEntry(domain: string, error: string, fields: seq<string>, at: int)

  datatype Store = Store(
    batches: map<int, seq<Interaction>>,
    patterns: map<(string, DataType), PatternEntry>,
    errors: map<string, seq<ErrorEntry>>,
    knowledge: map<string, Knowledge>)

  /** Batches never reach the threshold (they are processed when they do) and error logs stay bounded. */
  predicate StoreWf(s: Store)
  {
    (forall d :: d in s.batches ==> |s.batches[d]| < LearningThreshold)
    && LogsBounded(s.errors)
  }

  /** The domains a list of updates is filed under, in order. */
  function Domains(us: seq<KnowledgeUpdate>): (ds: seq<string>)
    ensures |ds| == |us| && forall k :: 0 <= k < |us| ==> ds[k] == us[k].domain
  {
    if us == [] then [] else [us[0].domain] + Domains(us[1..])
  }

  /**
   * `_update_domain_knowledge` for each update in turn: every domain
   * updated gains its samples, and every other domain is left alone.
   */
  function ApplyUpdates(knowledge: map<string, Knowledge>, us: seq<KnowledgeUpdate>, now: int)
    : (r: map<string, Knowledge>)
    requires forall u :: u in us ==> u.sampleSize > 0
    ensures forall d :: d in r <==> d in knowledge || d in Domains(us)
    ensures forall d :: d in knowledge && d !in Domains(us) ==> r[d] == knowledge[d]
    ensures forall d :: d in knowledge && d in r ==> r[d].sampleCount >= knowledge[d].sampleCount
    ensures forall d :: d in Domains(us) ==> r[d].sampleCount > 0 && r[d].avgSuccessRate.Some?
    decreases |us|
  {
    if us == [] then knowledge
    else
      var next := ApplyUpdate(knowledge, us[0], now);
      assert forall v :: v in us[1..] ==> v in us;
      assert Domains(us) == [us[0].domain] + Domains(us[1..]);
      var r := ApplyUpdates(next, us[1..], now);
      UpdatesStep(knowledge, us[0].domain, next, Domains(us[1..]), r);
      r
  }

  /** The facts `ApplyUpdates` states, from those about its first update and about the rest. */
  lemma UpdatesStep(knowledge: map<string, Knowledge>, domain: string, next: map<string, Knowledge>,
                    rest: seq<string>, r: map<string, Knowledge>)
    requires next.Keys == knowledge.Keys + {domain}
    requires forall d :: d in knowledge && d != domain ==> next[d] == knowledge[d]
    requires domain in knowledge ==> next[domain].sampleCount >= knowledge[domain].sampleCount
    requires next[domain].sampleCount > 0 && next[domain].avgSuccessRate.Some?
    requires forall d :: d in r <==> d in next || d in rest
    requires forall d :: d in next && d !in rest ==> r[d] == next[d]
    requires forall d :: d in next && d in r ==> r[d].sampleCount >= next[d].sampleCount
    requires forall d :: d in rest ==> r[d].sampleCount > 0 && r[d].avgSuccessRate.Some?
    ensures forall d :: d in r <==> d in knowledge || d in [domain] + rest
    ensures forall d :: d in knowledge && d !in [domain] + rest ==> r[d] == knowledge[d]
    ensures forall d :: d in knowledge && d in r ==> r[d].sampleCount >= knowledge[d].sampleCount
    ensures forall d :: d in [domain] + rest ==> r[d].sampleCount > 0 && r[d].avgSuccessRate.Some?
  {
    forall d | d in [domain] + rest ensures r[d].sampleCount > 0 && r[d].avgSuccessRate.Some? {
      if d !in rest { assert d == domain && r[d] == next[d]; }
    }
  }

  /** `_update_domain_knowledge` for one update: only its domain changes, and it gains the samples. */
  function ApplyUpdate(knowledge: map<string, Knowledge>, u: KnowledgeUpdate, now: int): (r: map<string, Knowledge>)
    requires u.sampleSize > 0
    ensures r.Keys == knowledge.Keys + {u.domain}
    ensures forall d :: d in knowledge && d != u.domain ==> r[d] == knowledge[d]
    ensures u.domain in knowledge ==> r[u.domain].sampleCount >= knowledge[u.domain].sampleCount
    ensures r[u.domain].sampleCount > 0 && r[u.domain].avgSuccessRate.Some?
  {
    var existing := if u.domain in knowledge then Some(knowledge[u.domain]) else None;
    knowledge[u.domain := UpdateKnowledge(existing, u, now)]
  }

  /**
   * `learn_from_interaction`: the record is pushed to the front of the day's
   * batch; a batch that reaches the threshold is processed, newest first,
   * and deleted.
   */
  function LearnFromInteraction(s: Store, day: int, i: Interaction, now: int): (r: Store)
    ensures var before := if day in s.batches then s.batches[day] else [];
            && (|before| + 1 < LearningThreshold ==>
                  day in r.batches && r.batches[day] == [i] + before && r.knowledge == s.knowledge)
            && (|before| + 1 >= LearningThreshold ==>
                  day !in r.batches && r.knowledge == ApplyUpdates(s.knowledge, BatchUpdates([i] + before), now))
    ensures forall d :: d != day ==> (d in r.batches <==> d in s.batches)
    ensures forall d :: d != day && d in s.batches ==> r.batches[d] == s.batches[d]
    ensures r.patterns == s.patterns && r.errors == s.errors
    ensures StoreWf(s) ==> StoreWf(r)
  {
    var before := if day in s.batches then s.batches[day] else [];
    var batch := [i] + before;
    if |batch| >= LearningThreshold then
      s.(batches := s.batches - {day}, knowledge := ApplyUpdates(s.knowledge, BatchUpdates(batch), now))
    else
      s.(batches := s.batches[day := batch])
  }

  /** Once a day has four interactions, a fifth empties its batch into the knowledge. */
  lemma FifthInteractionFlushes(s: Store, day: int, i: Interaction, now: int)
    requires StoreWf(s) && day in s.batches && |s.batches[day]| == LearningThreshold - 1
    ensures day !in LearnFromInteraction(s, day, i, now).batches
    ensures LearnFromInteraction(s, day, i, now).knowledge
            == ApplyUpdates(s.knowledge, BatchUpdates([i] + s.batches[day]), now)
  {
  }

  /** One entry of the execution results `learn_from_execution` is given. */
  datatype ExecResult = ExecResult(url: Option<string>, success: bool, dataKeys: seq<string>, error: Option<string>)

  function Successes(rs: seq<ExecResult>): (r: seq<ExecResult>)
    ensures |r| <= |rs|
    ensures forall x :: x in r <==> x in rs && x.success
  {
    if rs == [] then [] else (if rs[0].success then [rs[0]] else []) + Successes(rs[1..])
  }

  function Failures(rs: seq<ExecResult>): (r: seq<ExecResult>)
    ensures |r| <= |rs|
    ensures forall x :: x in r <==> x in rs && !x.success
  {
    if rs == [] then [] else (if rs[0].success then [] else [rs[0]]) + Failures(rs[1..])
  }

  function SuccessCount(patterns: map<(string, DataType), PatternEntry>, key: (string, DataType)): nat
  {
    if key in patterns then patterns[key].successCount else 0
  }

  function PatternKey(x: ExecResult, fields: seq<string>): (string, DataType)
  {
    (ExtractDomain(x.url.GetOr("")), Classify(fields))
  }

  function KeysFor(xs: seq<ExecResult>, fields: seq<string>): (keys: seq<(string, DataType)>)
    ensures |keys| == |xs|
  {
    if xs == [] then [] else [PatternKey(xs[0], fields)] + KeysFor(xs[1..], fields)
  }

  /** `_update_pattern` for each sampled success: its pattern's count goes up by one per success. */
  function UpdatePatterns(patterns: map<(string, DataType), PatternEntry>, xs: seq<ExecResult>, fields: seq<string>,
                          now: int): (r: map<(string, DataType), PatternEntry>)
    ensures forall key :: SuccessCount(r, key) == SuccessCount(patterns, key) + Count(KeysFor(xs, fields), key)
    ensures forall key :: key in r <==> key in patterns || key in KeysFor(xs, fields)
    decreases |xs|
  {
    if xs == [] then patterns
    else
      var key := PatternKey(xs[0], fields);
      var e := PatternEntry(SuccessCount(patterns, key) + 1, now, fields, xs[0].dataKeys);
      UpdatePatterns(patterns[key := e], xs[1..], fields, now)
  }

  /** The log of `domain`, empty when there is none. */
  function LogOf(errors: map<string, seq<ErrorEntry>>, domain: string): seq<ErrorEntry>
  {
    if domain in errors then errors[domain] else []
  }

  predicate LogsBounded(errors: map<string, seq<ErrorEntry>>)
  {
    forall d :: d in errors ==> |LogOf(errors, d)| <= ErrorLogSize
  }

  /** `ltrim(key, 0, 99)`: the first 100 entries of a log. */
  function Newest(log: seq<ErrorEntry>): (r: seq<ErrorEntry>)
    ensures |r| == Min(ErrorLogSize, |log|) && r == log[..|r|]
  {
    log[..Min(ErrorLogSize, |log|)]
  }

  /** `_record_error_pattern`: the entry goes to the front of the domain's log, which keeps the newest 100. */
  function RecordError(errors: map<string, seq<ErrorEntry>>, e: ErrorEntry): (r: map<string, seq<ErrorEntry>>)
    ensures r.Keys == errors.Keys + {e.domain}
    ensures LogOf(r, e.domain) == Newest([e] + LogOf(errors, e.domain))
    ensures forall d :: d != e.domain ==> LogOf(r, d) == LogOf(errors, d)
    ensures LogsBounded(errors) ==> LogsBounded(r)
  {
    errors[e.domain := Newest([e] + LogOf(errors, e.domain))]
  }

  /** The entry `_record_error_pattern` is given for a failed result. */
  function ErrorFor(x: ExecResult, fields: seq<string>, now: int): (e: ErrorEntry)
    ensures e.domain == ExtractDomain(x.url.GetOr(""))
    ensures x.error.None? ==> e.error == "Unknown error"
  {
    ErrorEntry(ExtractDomain(x.url.GetOr("")), x.error.GetOr("Unknown error"), fields, now)
  }

  /** The domains of the failed results, in order. */
  function FailureDomains(xs: seq<ExecResult>): (ds: seq<string>)
    ensures |ds| == |xs| && forall k :: 0 <= k < |xs| ==> ds[k] == ExtractDomain(xs[k].url.GetOr(""))
  {
    if xs == [] then [] else [ExtractDomain(xs[0].url.GetOr(""))] + FailureDomains(xs[1..])
  }

  /** `_record_error_pattern` for each failure in turn. */
  function RecordErrors(errors: map<string, seq<ErrorEntry>>, xs: seq<ExecResult>, fields: seq<string>, now: int)
    : (r: map<string, seq<ErrorEntry>>)
    ensures forall d :: d in r <==> d in errors || d in FailureDomains(xs)
    ensures forall d :: d !in FailureDomains(xs) ==> LogOf(r, d) == LogOf(errors, d)
    ensures LogsBounded(errors) ==> LogsBounded(r)
    decreases |xs|
  {
    if xs == [] then errors
    else
      var e := ErrorFor(xs[0], fields, now);
      var next := RecordError(errors, e);
      assert FailureDomains(xs) == [e.domain] + FailureDomains(xs[1..]);
      RecordErrors(next, xs[1..], fields, now)
  }

  /** The last failure recorded heads its domain's log. */
  lemma {:induction false} LastErrorFirst(errors: map<string, seq<ErrorEntry>>, xs: seq<ExecResult>,
                                          fields: seq<string>, now: int)
    requires xs != []
    ensures var e := ErrorFor(xs[|xs| - 1], fields, now);
            var log := LogOf(RecordErrors(errors, xs, fields, now), e.domain);
            |log| > 0 && log[0] == e
    decreases |xs|
  {
    var next := RecordError(errors, ErrorFor(xs[0], fields, now));
    if |xs| > 1 {
      assert xs[1..][|xs[1..]| - 1] == xs[|xs| - 1];
      LastErrorFirst(next, xs[1..], fields, now);
    }
  }

  /**
   * `learn_from_execution`: nothing for no results; otherwise the first
   * three successes each count towards their pattern and every failure is
   * logged for its domain.
   */
  function LearnFromExecution(s: Store, fields: seq<string>, results: seq<ExecResult>, now: int): (r: Store)
    ensures results == [] ==> r == s
    ensures var ok := Successes(results);
            forall key :: SuccessCount(r.patterns, key)
                          == SuccessCount(s.patterns, key) + Count(KeysFor(ok[..Min(SampledSuccesses, |ok|)], fields), key)
    ensures forall x :: x in results && !x.success ==> ExtractDomain(x.url.GetOr("")) in r.errors
    ensures forall d :: d in r.errors <==> d in s.errors || d in FailureDomains(Failures(results))
    ensures forall d :: d !in FailureDomains(Failures(results)) ==> LogOf(r.errors, d) == LogOf(s.errors, d)
    ensures r.batches == s.batches && r.knowledge == s.knowledge
    ensures StoreWf(s) ==> StoreWf(r)
  {
    if results == [] then s
    else
      var ok := Successes(results);
      var failed := Failures(results);
      var r := s.(patterns := UpdatePatterns(s.patterns, ok[..Min(SampledSuccesses, |ok|)], fields, now),
                  errors := RecordErrors(s.errors, failed, fields, now));

      FailedDomainsListed(results);
      r
  }

  /** The domain of every failed result is among the failure domains. */
  lemma FailedDomainsListed(results: seq<ExecResult>)
    ensures forall x :: x in results && !x.success ==> ExtractDomain(x.url.GetOr("")) in FailureDomains(Failures(results))
  {
    var failed := Failures(results);
    forall x | x in results && !x.success ensures ExtractDomain(x.url.GetOr("")) in FailureDomains(failed) {
      assert x in failed;
      var k :| 0 <= k < |failed| && failed[k] == x;
      assert FailureDomains(failed)[k] == ExtractDomain(x.url.GetOr(""));
    }
  }

  /** However many successes there are, at most three count towards the patterns. */
  lemma {:induction false} AtMostThreeCounted(s: Store, fields: seq<string>, results: seq<ExecResult>, now: int,
                                              key: (string, DataType))
    ensures SuccessCount(LearnFromExecution(s, fields, results, now).patterns, key)
            <= SuccessCount(s.patterns, key) + SampledSuccesses
  {
    var ok := Successes(results);
    CountAtMostLength(KeysFor(ok[..Min(SampledSuccesses, |ok|)], fields), key);
  }

  lemma {:induction false} CountAtMostLength<T>(s: seq<T>, x: T)
    ensures Count(s, x) <= |s|
  {
    if s != [] { CountAtMostLength(s[1..], x); }
  }

  // ---------------------------------------------------------------------
  // Suggestions
  // ---------------------------------------------------------------------

  datatype OptKind = AddConcurrency | AddRetry | OptimizeSchema | EnableJs | AddDelay

  datatype Suggestion = Suggestion(kind: OptKind, confidence: real, fields: seq<string>)

  function LookupKnowledge(s: Store, domain: string): Option<Knowledge>
  {
    if domain in s.knowledge then Some(s.knowledge[domain]) else None
  }

  /** A number read from the knowledge hash counts as set when present and non-zero. */
  predicate Truthy(n: Option<int>) { n.Some? && n.value != 0 }

  predicate Positive(x: Option<real>) { x.Some? && x.value > 0.0 }

  /** `set(common) - set(schema)`: the pattern's fields the schema lacks. */
  function Missing(common: seq<string>, fields: seq<string>): (r: seq<string>)
    ensures forall f :: f in r <==> f in common && f !in fields
  {
    if common == [] then []
    else
      var rest := Missing(common[1..], fields);
      if common[0] in fields then rest else [common[0]] + rest
  }

  predicate HasKind(c: seq<Suggestion>, kind: OptKind)
  {
    exists x :: x in c && x.kind == kind
  }

  /** A suggestion when the condition holds, nothing otherwise. */
  function When(cond: bool, x: Suggestion): (r: seq<Suggestion>)
    ensures forall y :: y in r <==> cond && y == x
  {
    if cond then [x] else []
  }

  function ConcurrencyConfidence(k: Option<Knowledge>): real
  {
    if k.Some? && Truthy(k.value.maxConcurrent) then 0.9 else 0.8
  }

  /** The schema suggestion: the fields the cached pattern for the data type has and the schema lacks. */
  function SchemaSuggestion(fields: seq<string>): (r: seq<Suggestion>)
    ensures forall x :: x in r ==> x.kind == OptimizeSchema && x.confidence == 0.7
                                   && Classify(fields) in {Ecommerce, News, Weather} && |x.fields| > 0
                                   && forall f :: f in x.fields <==> f in CachedFields(Classify(fields)) && f !in fields
    ensures |r| <= 1
  {
    PatternFieldsOfType(Classify(fields));
    var common := CachedFields(Classify(fields));
    var missing := Missing(common, fields);
    When(|common| > 0 && |missing| > 0, Suggestion(OptimizeSchema, 0.7, missing))
  }

  /** The suggestions before sorting, in the order the source tries them. */
  function Candidates(urls: seq<string>, fields: seq<string>, k: Option<Knowledge>): (c: seq<Suggestion>)
    ensures |c| <= 5
  {
    When(|urls| > 5, Suggestion(AddConcurrency, ConcurrencyConfidence(k), []))
    + When(k.Some? && k.value.retryStrategy, Suggestion(AddRetry, 0.85, []))
    + SchemaSuggestion(fields)
    + When(k.Some? && k.value.requiresJavascript, Suggestion(EnableJs, 0.9, []))
    + When(k.Some? && Positive(k.value.optimalDelay), Suggestion(AddDelay, 0.8, []))
  }

  lemma CandidatesMembers(urls: seq<string>, fields: seq<string>, k: Option<Knowledge>, x: Suggestion)
    ensures x in Candidates(urls, fields, k) <==>
              (|urls| > 5 && x == Suggestion(AddConcurrency, ConcurrencyConfidence(k), []))
              || (k.Some? && k.value.retryStrategy && x == Suggestion(AddRetry, 0.85, []))
              || x in SchemaSuggestion(fields)
              || (k.Some? && k.value.requiresJavascript && x == Suggestion(EnableJs, 0.9, []))
              || (k.Some? && Positive(k.value.optimalDelay) && x == Suggestion(AddDelay, 0.8, []))
  {
  }

  /**
   * Which suggestions are made: concurrency for more than five URLs, retry,
   * JavaScript and delay when the domain's knowledge records them.
   */
  lemma CandidateKinds(urls: seq<string>, fields: seq<string>, k: Option<Knowledge>)
    ensures var c := Candidates(urls, fields, k);
            && (HasKind(c, AddConcurrency) <==> |urls| > 5)
            && (HasKind(c, AddRetry) <==> k.Some? && k.value.retryStrategy)
            && (HasKind(c, EnableJs) <==> k.Some? && k.value.requiresJavascript)
            && (HasKind(c, AddDelay) <==> k.Some? && Positive(k.value.optimalDelay))
  {
    var c := Candidates(urls, fields, k);
    KindMember(urls, fields, k, AddConcurrency);
    KindMember(urls, fields, k, AddRetry);
    KindMember(urls, fields, k, EnableJs);
    KindMember(urls, fields, k, AddDelay);
    if |urls| > 5 { CandidatesMembers(urls, fields, k, Suggestion(AddConcurrency, ConcurrencyConfidence(k), [])); }
    if k.Some? && k.value.retryStrategy { CandidatesMembers(urls, fields, k, Suggestion(AddRetry, 0.85, [])); }
    if k.Some? && k.value.requiresJavascript { CandidatesMembers(urls, fields, k, Suggestion(EnableJs, 0.9, [])); }
    if k.Some? && Positive(k.value.optimalDelay) { CandidatesMembers(urls, fields, k, Suggestion(AddDelay, 0.8, [])); }
  }

  /** A candidate of a kind other than the schema one is there only under that kind's condition. */
  lemma KindMember(urls: seq<string>, fields: seq<string>, k: Option<Knowledge>, kind: OptKind)
    requires kind != OptimizeSchema
    ensures HasKind(Candidates(urls, fields, k), kind) ==>
              || (kind == AddConcurrency && |urls| > 5)
              || (kind == AddRetry && k.Some? && k.value.retryStrategy)
              || (kind == EnableJs && k.Some? && k.value.requiresJavascript)
              || (kind == AddDelay && k.Some? && Positive(k.value.optimalDelay))
  {
    if HasKind(Candidates(urls, fields, k), kind) {
      var x :| x in Candidates(urls, fields, k) && x.kind == kind;
      CandidatesMembers(urls, fields, k, x);
    }
  }

  /**
   * The confidences: 0.9 for concurrency on a domain with a known limit and
   * 0.8 without, 0.7 for the schema suggestion, which names exactly the
   * cached pattern's fields the schema lacks.
   */
  lemma CandidateDetails(urls: seq<string>, fields: seq<string>, k: Option<Knowledge>, x: Suggestion)
    requires x in Candidates(urls, fields, k)
    ensures x.kind == AddConcurrency ==> x.confidence == (if k.Some? && Truthy(k.value.maxConcurrent) then 0.9 else 0.8)
    ensures x.kind == OptimizeSchema ==>
              x.confidence == 0.7 && Classify(fields) in {Ecommerce, News, Weather}
              && forall f :: f in x.fields <==> f in CachedFields(Classify(fields)) && f !in fields
    ensures x.kind in {AddRetry, EnableJs} ==> x.confidence == (if x.kind == AddRetry then 0.85 else 0.9)
    ensures x.kind == AddDelay ==> x.confidence == 0.8
  {
    CandidatesMembers(urls, fields, k, x);
  }

  predicate SortedDesc(s: seq<Suggestion>)
  {
    forall i, j :: 0 <= i < j < |s| ==> s[i].confidence >= s[j].confidence
  }

  /** A list headed by `a` is sorted iff its tail is and `a` is at least as confident as all of it. */
  lemma SortedCons(a: Suggestion, t: seq<Suggestion>)
    ensures SortedDesc([a] + t) <==> SortedDesc(t) && forall y :: y in t ==> a.confidence >= y.confidence
  {
    var s := [a] + t;
    if SortedDesc(t) && forall y :: y in t ==> a.confidence >= y.confidence {
      forall i, j | 0 <= i < j < |s| ensures s[i].confidence >= s[j].confidence {
        if i == 0 { assert s[j] in t; } else { assert s[i] == t[i - 1] && s[j] == t[j - 1]; }
      }
    }
    if SortedDesc(s) {
      forall i, j | 0 <= i < j < |t| ensures t[i].confidence >= t[j].confidence {
        assert t[i] == s[i + 1] && t[j] == s[j + 1];
      }
      forall y | y in t ensures a.confidence >= y.confidence {
        var j :| 0 <= j < |t| && t[j] == y;
        assert s[0] == a && s[j + 1] == y;
      }
    }
  }

  /** Inserts `x` before the first element whose confidence is not higher. */
  function Insert(x: Suggestion, s: seq<Suggestion>): (r: seq<Suggestion>)
    ensures multiset(r) == multiset(s) + multiset{x}
  {
    if s == [] || s[0].confidence <= x.confidence then [x] + s
    else
      assert s == [s[0]] + s[1..];
      [s[0]] + Insert(x, s[1..])
  }

  lemma {:induction false} InsertSorted(x: Suggestion, s: seq<Suggestion>)
    requires SortedDesc(s)
    ensures SortedDesc(Insert(x, s))
  {
    if s != [] {
      assert s == [s[0]] + s[1..];
      SortedCons(s[0], s[1..]);
    }
    if s == [] || s[0].confidence <= x.confidence {
      SortedCons(x, s);
    } else {
      var rest := Insert(x, s[1..]);
      InsertSorted(x, s[1..]);
      forall y | y in rest ensures s[0].confidence >= y.confidence {
        assert y in multiset(rest);
        if y != x { assert y in multiset(s[1..]); }
      }
      SortedCons(s[0], rest);
    }
  }

  /** `list.sort(key=confidence, reverse=True)`: a sort by descending confidence. */
  function SortByConfidence(s: seq<Suggestion>): (r: seq<Suggestion>)
    ensures SortedDesc(r)
    ensures multiset(r) == multiset(s)
  {
    if s == [] then []
    else
      assert s == [s[0]] + s[1..];
      var rest := SortByConfidence(s[1..]);
      InsertSorted(s[0], rest);
      Insert(s[0], rest)
  }

  /** The suggestions of `s` with confidence `c`, in order. */
  function WithConfidence(s: seq<Suggestion>, c: real): seq<Suggestion>
  {
    if s == [] then [] else (if s[0].confidence == c then [s[0]] else []) + WithConfidence(s[1..], c)
  }

  lemma WithConfidenceCons(a: Suggestion, t: seq<Suggestion>, c: real)
    ensures WithConfidence([a] + t, c) == (if a.confidence == c then [a] else []) + WithConfidence(t, c)
  {
    assert ([a] + t)[1..] == t;
  }

  lemma {:induction false} InsertKeepsTies(x: Suggestion, s: seq<Suggestion>, c: real)
    ensures WithConfidence(Insert(x, s), c) == (if x.confidence == c then [x] else []) + WithConfidence(s, c)
  {
    if s == [] || s[0].confidence <= x.confidence {
      WithConfidenceCons(x, s, c);
    } else {
      assert s == [s[0]] + s[1..];
      var tx: seq<Suggestion> := if x.confidence == c then [x] else [];
      var t0: seq<Suggestion> := if s[0].confidence == c then [s[0]] else [];
      var w := WithConfidence(s[1..], c);
      InsertKeepsTies(x, s[1..], c);
      WithConfidenceCons(s[0], Insert(x, s[1..]), c);
      WithConfidenceCons(s[0], s[1..], c);
      assert WithConfidence(Insert(x, s), c) == t0 + (tx + w);
      // s[0] is strictly more confident than x, so at most one of them is a tie.
      assert t0 == [] || tx == [];
      assert t0 + (tx + w) == tx + (t0 + w);
    }
  }

  /** The sort is stable: suggestions of equal confidence keep their relative order. */
  lemma {:induction false} SortIsStable(s: seq<Suggestion>, c: real)
    ensures WithConfidence(SortByConfidence(s), c) == WithConfidence(s, c)
  {
    if s != [] {
      SortIsStable(s[1..], c);
      InsertKeepsTies(s[0], SortByConfidence(s[1..]), c);
      WithConfidenceCons(s[0], s[1..], c);
      assert s == [s[0]] + s[1..];
    }
  }

  /**
   * `suggest_optimizations`: nothing without URLs; otherwise the candidates
   * for the first URL's domain, sorted stably by descending confidence.
   */
  function SuggestOptimizations(s: Store, urls: seq<string>, fields: seq<string>): (r: seq<Suggestion>)
    ensures urls == [] ==> r == []
    ensures SortedDesc(r)
    ensures urls != [] ==> multiset(r) == multiset(Candidates(urls, fields, LookupKnowledge(s, ExtractDomain(urls[0]))))
    ensures urls != [] ==> forall c :: WithConfidence(r, c)
                                       == WithConfidence(Candidates(urls, fields, LookupKnowledge(s, ExtractDomain(urls[0]))), c)
  {
    if urls == [] then []
    else
      var cands := Candidates(urls, fields, LookupKnowledge(s, ExtractDomain(urls[0])));
      assert forall c :: WithConfidence(SortByConfidence(cands), c) == WithConfidence(cands, c) by {
        forall c ensures WithConfidence(SortByConfidence(cands), c) == WithConfidence(cands, c) {
          SortIsStable(cands, c);
        }
      }
      SortByConfidence(cands)
  }

  lemma SortedHead(r: seq<Suggestion>, j: nat)
    requires SortedDesc(r) && j < |r|
    ensures r[0].confidence >= r[j].confidence
  {
  }

  /** Many URLs on a domain known to take concurrency put that suggestion, at 0.9, first. */
  lemma ConcurrencyFirst(s: Store, urls: seq<string>, fields: seq<string>)
    requires |urls| > 5
    requires var k := LookupKnowledge(s, ExtractDomain(urls[0])); k.Some? && Truthy(k.value.maxConcurrent)
    ensures var r := SuggestOptimizations(s, urls, fields); |r| > 0 && r[0].confidence == 0.9
  {
    var k := LookupKnowledge(s, ExtractDomain(urls[0]));
    var cands := Candidates(urls, fields, k);
    var x := Suggestion(AddConcurrency, 0.9, []);
    CandidatesMembers(urls, fields, k, x);
    var r := SuggestOptimizations(s, urls, fields);
    assert multiset(r) == multiset(cands);
    assert x in multiset(r);
    var j :| 0 <= j < |r| && r[j] == x;
    assert r[0] in multiset(cands);
    CandidateAtMost(urls, fields, k, r[0]);
    SortedHead(r, j);
  }

  /** No suggestion is more confident than 0.9. */
  lemma CandidateAtMost(urls: seq<string>, fields: seq<string>, k: Option<Knowledge>, x: Suggestion)
    requires x in Candidates(urls, fields, k)
    ensures x.confidence <= 0.9
  {
    CandidateDetails(urls, fields, k, x);
    if x.kind == OptimizeSchema {
      assert x.confidence == 0.7;
    }
  }

  // ---------------------------------------------------------------------
  // Field suggestions and tips
  // ---------------------------------------------------------------------

  datatype FieldSuggestion = FieldSuggestion(field: string, required: bool, fromPattern: bool)

  function Names(s: seq<FieldSuggestion>): (r: seq<string>)
    ensures |r| == |s| && forall i :: 0 <= i < |s| ==> r[i] == s[i].field
  {
    if s == [] then [] else [s[0].field] + Names(s[1..])
  }

  const RequiredNames: seq<string> := ["title", "price", "name"]

  /** The cached pattern's fields, `title`, `price` and `name` required. */
  function PatternSuggestions(common: seq<string>): (r: seq<FieldSuggestion>)
    ensures Names(r) == common
    ensures forall i :: 0 <= i < |r| ==> r[i].fromPattern && (r[i].required <==> r[i].field in RequiredNames)
  {
    if common == [] then []
    else [FieldSuggestion(common[0], common[0] in RequiredNames, true)] + PatternSuggestions(common[1..])
  }

  /** `acc` followed by an optional, not-from-pattern suggestion for each of `added`. */
  function Suggest(acc: seq<FieldSuggestion>, added: seq<string>): (r: seq<FieldSuggestion>)
    ensures |r| == |acc| + |added| && r[..|acc|] == acc
    ensures forall i :: |acc| <= i < |r| ==> !r[i].required && !r[i].fromPattern
    ensures Names(r) == Names(acc) + added
  {
    var r := acc + seq(|added|, i requires 0 <= i < |added| => FieldSuggestion(added[i], false, false));
    assert forall i :: 0 <= i < |r| ==> Names(r)[i] == (Names(acc) + added)[i];
    r
  }

  /** The domain's fields not yet suggested, checked against the growing list. */
  function AddDomainFields(acc: seq<FieldSuggestion>, fields: seq<string>): (r: seq<FieldSuggestion>)
    ensures |acc| <= |r| && r[..|acc|] == acc
    ensures forall i :: |acc| <= i < |r| ==> !r[i].required && !r[i].fromPattern
    ensures forall f :: f in Names(r) <==> f in Names(acc) || f in fields
    ensures NoDup(Names(acc)) ==> NoDup(Names(r))
  {
    var all := AppendNew(Names(acc), fields);
    assert all == Names(acc) + all[|acc|..] by { assert all[..|acc|] == Names(acc); }
    Suggest(acc, all[|acc|..])
  }

  lemma PatternFieldsNoDup(dataType: string)
    ensures NoDup(PatternFields(dataType))
  {
  }

  /**
   * `get_field_suggestions`: the cached pattern's fields, then the domain's
   * known fields not yet listed, never twice, only pattern fields required.
   */
  function GetFieldSuggestions(s: Store, domain: string, dataType: string): (r: seq<FieldSuggestion>)
    ensures NoDup(Names(r))
    ensures forall f :: f in Names(r) <==>
              f in PatternFields(dataType) || (domain in s.knowledge && f in s.knowledge[domain].commonFields)
    ensures forall i :: 0 <= i < |r| ==> (r[i].required <==> r[i].fromPattern && r[i].field in RequiredNames)
    ensures |PatternFields(dataType)| <= |r| && Names(r)[..|PatternFields(dataType)|] == PatternFields(dataType)
  {
    var pattern := PatternSuggestions(PatternFields(dataType));
    PatternFieldsNoDup(dataType);
    match LookupKnowledge(s, domain)
    case None => pattern
    case Some(k) =>
      var r := AddDomainFields(pattern, k.commonFields);
      assert Names(r)[..|pattern|] == Names(pattern) by {
        assert forall i :: 0 <= i < |pattern| ==> r[i] == pattern[i] by {
          forall i | 0 <= i < |pattern| ensures r[i] == pattern[i] { assert r[..|pattern|][i] == pattern[i]; }
        }
      }
      r
  }

  datatype Tip = JsTip | PaginationTip | AntiScrapingTip | DelayTip(delay: real) | LowSuccessTip

  /** `get_extraction_tips`: one tip per fact the domain's knowledge records. */
  function GetExtractionTips(s: Store, domain: string): (r: seq<Tip>)
    ensures domain !in s.knowledge ==> r == []
    ensures domain in s.knowledge ==>
              var k := s.knowledge[domain];
              && (JsTip in r <==> k.requiresJavascript)
              && (PaginationTip in r <==> k.hasPagination)
              && (AntiScrapingTip in r <==> k.hasAntiScraping)
              && (Positive(k.optimalDelay) ==> DelayTip(k.optimalDelay.value) in r)
              && (forall t :: t in r && t.DelayTip? ==> Positive(k.optimalDelay) && t.delay == k.optimalDelay.value)
              && (LowSuccessTip in r <==> k.avgSuccessRate.GetOr(0.0) < 0.5)
    ensures |r| <= 5
  {
    match LookupKnowledge(s, domain)
    case None => []
    case Some(k) =>
      var js := if k.requiresJavascript then [JsTip] else [];
      var pages := if k.hasPagination then [PaginationTip] else [];
      var anti := if k.hasAntiScraping then [AntiScrapingTip] else [];
      var delay := if Positive(k.optimalDelay) then [DelayTip(k.optimalDelay.value)] else [];
      var low := if k.avgSuccessRate.GetOr(0.0) < 0.5 then [LowSuccessTip] else [];
      var r := js + pages + anti + delay + low;
      assert forall t :: t in r <==> t in js || t in pages || t in anti || t in delay || t in low;
      r
  }
}
