/**
  The Mongo client's proxy helpers: `SaveProxies` writes a list of documents
  in batches of at most 1000, retrying each batch up to three times and
  stopping at the first batch that cannot be written; `GetProxies` reads a
  limited number of documents and extracts their string `proxy` fields.

  The database is a map from (database, collection) to the documents of
  that collection in insertion order; whether an `InsertMany` attempt fails
  is the parameter `fails(batch, attempt)`; find and decode failures are
  flags.
*/
module MongoStore {
  import opened Wrappers

  /** A document field: a string, or any other BSON value. */
  datatype Field = Str(s: string) | NonString

  type Document = map<string, Field>

  const BatchSize := 1000
  const MaxAttempts := 3

  /** The number of batches `n` documents are sent in. */
  function NumBatches(n: nat): (k: nat)
    ensures n == 0 <==> k == 0
    ensures k > 0 ==> BatchSize * (k - 1) < n <= BatchSize * k
  {
    if n == 0 then 0 else (n - 1) / BatchSize + 1
  }

  /** Batch `b` of `xs`: the documents from `1000 b` to `min(1000 b + 1000, n)`. */
  function Batch<T>(xs: seq<T>, b: nat): (batch: seq<T>)
    requires BatchSize * b < |xs|
    ensures 1 <= |batch| <= BatchSize
  {
    var start := BatchSize * b;
    var end := if start + BatchSize > |xs| then |xs| else start + BatchSize;
    xs[start..end]
  }

  /** The first `k` batches of `xs`, concatenated. */
  function Concat<T>(xs: seq<T>, k: nat): seq<T>
    requires k <= NumBatches(|xs|)
  {
    if k == 0 then [] else Concat(xs, k - 1) + Batch(xs, k - 1)
  }

  /** The batches are consecutive slices: the first `k` of them make up the
      first `min(1000 k, n)` documents, so all of them together are exactly
      the input, in order. */
  lemma {:induction false} ConcatIsPrefix<T>(xs: seq<T>, k: nat)
    requires k <= NumBatches(|xs|)
    ensures Concat(xs, k) == xs[..if BatchSize * k > |xs| then |xs| else BatchSize * k]
  {
    if k > 0 {
      ConcatIsPrefix(xs, k - 1);
      var start := BatchSize * (k - 1);
      var end := if start + BatchSize > |xs| then |xs| else start + BatchSize;
      assert xs[..start] + xs[start..end] == xs[..end];
    }
  }

  /** All batches together are the input. */
  lemma BatchesPartition<T>(xs: seq<T>)
    ensures Concat(xs, NumBatches(|xs|)) == xs
  {
    ConcatIsPrefix(xs, NumBatches(|xs|));
  }

  /** Some attempt at writing batch `b` succeeds. */
  predicate BatchWritable(fails: (nat, nat) -> bool, b: nat)
  {
    exists r :: 0 <= r < MaxAttempts && !fails(b, r)
  }

  /** The string `proxy` fields of `docs`, in order. */
  function ProxyFields(docs: seq<Document>): (r: seq<string>)
    ensures |r| <= |docs|
  {
    if |docs| == 0 then []
    else
      var last := docs[|docs| - 1];
      ProxyFields(docs[..|docs| - 1]) + (if "proxy" in last && last["proxy"].Str? then [last["proxy"].s] else [])
  }

  /** A string is extracted exactly when some document holds it as its
      `proxy` field; documents without one, or with a non-string one, are
      skipped. */
  lemma {:induction false} ProxyFieldsMembers(docs: seq<Document>, s: string)
    ensures s in ProxyFields(docs) <==> exists i :: 0 <= i < |docs| && "proxy" in docs[i] && docs[i]["proxy"] == Str(s)
  {
    if |docs| > 0 {
      var init := docs[..|docs| - 1];
      ProxyFieldsMembers(init, s);
      if exists i :: 0 <= i < |init| && "proxy" in init[i] && init[i]["proxy"] == Str(s) {
        var i :| 0 <= i < |init| && "proxy" in init[i] && init[i]["proxy"] == Str(s);
        assert docs[i] == init[i];
      }
      if exists i :: 0 <= i < |docs| && "proxy" in docs[i] && docs[i]["proxy"] == Str(s) {
        var i :| 0 <= i < |docs| && "proxy" in docs[i] && docs[i]["proxy"] == Str(s);
        if i < |init| {
          assert init[i] == docs[i];
        }
      }
    }
  }

  /** The documents a find with `limit` returns: all of them for 0, and at
      most `|limit|` otherwise. */
  function Limited(docs: seq<Document>, limit: int): (r: seq<Document>)
    ensures limit == 0 ==> r == docs
    ensures limit != 0 ==> |r| <= (if limit < 0 then -limit else limit)
    ensures r <= docs
  {
    var n := if limit < 0 then -limit else limit;
    if limit == 0 || n >= |docs| then docs else docs[..n]
  }

  class MongoClient {
    var collections: map<(string, string), seq<Document>>

    constructor (collections: map<(string, string), seq<Document>>)
      ensures this.collections == collections
    {
      this.collections := collections;
    }

    /** The documents of a collection; a missing one is empty. */
    function Collection(database: string, collection: string): (docs: seq<Document>)
      reads this`collections
      ensures (database, collection) !in collections ==> docs == []
    {
      if (database, collection) in collections then collections[(database, collection)] else []
    }

    /** The retry loop of one batch: up to three `InsertMany` attempts,
        stopping at the first that succeeds, which appends the batch. */
    method InsertWithRetry(key: (string, string), batch: seq<Document>, b: nat, fails: (nat, nat) -> bool)
      returns (ok: bool, attempts: nat)
      modifies this`collections
      ensures 1 <= attempts <= MaxAttempts
      ensures ok <==> BatchWritable(fails, b)
      ensures ok ==> !fails(b, attempts - 1) && forall r :: 0 <= r < attempts - 1 ==> fails(b, r)
      ensures !ok ==> attempts == MaxAttempts && collections == old(collections)
      ensures ok ==> collections == old(collections)[key := old(Collection(key.0, key.1)) + batch]
    {
      var retries := 0;
      while retries < MaxAttempts
        invariant 0 <= retries <= MaxAttempts
        invariant forall r :: 0 <= r < retries ==> fails(b, r)
        invariant collections == old(collections)
      {
        if !fails(b, retries) {
          collections := collections[key := Collection(key.0, key.1) + batch];
          return true, retries + 1;
        }
        retries := retries + 1;
      }
      return false, MaxAttempts;
    }

    /** `SaveProxies`: the batches are written in order until one cannot be
        written in three attempts; `saved` batches were written (appended,
        in order, to the collection), and the call fails exactly when some
        batch could not be. An empty input writes nothing. */
    method SaveProxies(database: string, collection: string, proxies: seq<Document>, fails: (nat, nat) -> bool)
      returns (err: Option<string>, saved: nat)
      modifies this`collections
      ensures saved <= NumBatches(|proxies|)
      ensures err.None? <==> saved == NumBatches(|proxies|)
      ensures forall b :: 0 <= b < saved ==> BatchWritable(fails, b)
      ensures err.Some? ==> !BatchWritable(fails, saved)
      ensures saved == 0 ==> collections == old(collections)
      ensures saved > 0 ==>
                collections == old(collections)[(database, collection) := old(Collection(database, collection)) + Concat(proxies, saved)]
    {
      var key := (database, collection);
      var i := 0;
      saved := 0;
      while i < |proxies|
        invariant i == BatchSize * saved
        invariant saved <= NumBatches(|proxies|)
        invariant i < |proxies| || saved == NumBatches(|proxies|)
        invariant forall b :: 0 <= b < saved ==> BatchWritable(fails, b)
        invariant saved == 0 ==> collections == old(collections)
        invariant saved > 0 ==> collections == old(collections)[key := old(Collection(database, collection)) + Concat(proxies, saved)]
        decreases |proxies| - i
      {
        var end := i + BatchSize;
        if end > |proxies| {
          end := |proxies|;
        }
        var batch := proxies[i..end];
        assert batch == Batch(proxies, saved);
        ghost var written := Collection(database, collection);
        assert written == old(Collection(database, collection)) + Concat(proxies, saved);
        var ok, _ := InsertWithRetry(key, batch, saved, fails);
        if !ok {
          return Some("saving to MongoDB failed"), saved;
        }
        assert Concat(proxies, saved + 1) == Concat(proxies, saved) + batch;
        assert written + batch == old(Collection(database, collection)) + Concat(proxies, saved + 1);
        saved := saved + 1;
        i := i + BatchSize;
      }
      return None, saved;
    }

    /** `GetProxies`: the string `proxy` fields of the documents the limited
        find returns, in order; a failed find or decode is an error. */
    method GetProxies(database: string, collection: string, limit: int, findFails: bool, decodeFails: bool)
      returns (r: Result<seq<string>, string>)
      ensures findFails ==> r.Err?
      ensures !findFails && decodeFails ==> r.Err?
      ensures !findFails && !decodeFails ==> r == Ok(ProxyFields(Limited(Collection(database, collection), limit)))
    {
      if findFails {
        return Err("querying MongoDB failed");
      }
      if decodeFails {
        return Err("decoding the query results failed");
      }
      var results := Limited(Collection(database, collection), limit);
      var proxies: seq<string> := [];
      for i := 0 to |results|
        invariant proxies == ProxyFields(results[..i])
      {
        assert results[..i + 1][..i] == results[..i];
        var result := results[i];
        if "proxy" in result && result["proxy"].Str? {
          proxies := proxies + [result["proxy"].s];
        }
      }
      assert results[..|results|] == results;
      return Ok(proxies);
    }
  }
}
