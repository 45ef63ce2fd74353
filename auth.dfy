/**
 * Temporary-credential cache and request preparation of the aioimdb client.
 *
 * One credential record is kept in a shared key-value cache under a fixed key.
 * Before each request the record is judged: absent, expired or expiring within
 * 60 seconds means a fresh record is fetched and stored; otherwise the cached
 * record is used as it is. The active record's three keys and a canonical
 * https URL are then handed to an opaque request signer.
 *
 * Times are integer microseconds since a common epoch.
 */
module AioimdbAuth {

  // ---------------------------------------------------------------------------
  // Constants
  // ---------------------------------------------------------------------------

  const SOON_EXPIRES_SECONDS: int := 60
  const MICROS_PER_SECOND: int := 1_000_000
  /** The safety margin before expiry, in microseconds. */
  const SOON_EXPIRES_MICROS: int := SOON_EXPIRES_SECONDS * MICROS_PER_SECOND
  /** The one cache key every operation touches. */
  const CREDS_STORAGE_KEY: string := "aioimdb-credentials"
  const SERVICE: string := "execute-api"
  const REGION: string := "us-east-1"

  // ---------------------------------------------------------------------------
  // Data model
  // ---------------------------------------------------------------------------

  datatype Option<T> = None | Some(value: T)

  datatype Result<T, E> = Success(value: T) | Failure(error: E)

  /** The `resource` object issued by the temporary-credentials endpoint. */
  datatype Record = Record(
    accessKeyId: string,
    secretAccessKey: string,
    sessionToken: string,
    expirationTimeStamp: int)

  /**
   * A value stored under the credentials key. `Empty` stands for every value
   * that is false in a boolean context (a stored `None`, an empty object).
   */
  datatype Entry = Empty | Creds(record: Record)

  /** Why the remote fetch failed: transport, a non-2xx status, a bad body. */
  datatype FetchError = TransportFailure | HttpStatus(code: int) | MalformedBody

  datatype AuthError =
    | FetchFailed(cause: FetchError)
      /** The active value has no `accessKeyId` (it is falsy). */
    | MissingCredentialField

  /** What the signer is given as the caller's identity. */
  datatype Credentials = Credentials(accessKey: string, secretKey: string, token: string)

  type Headers = map<string, string>

  /** Everything the signer sees of one outgoing request. */
  datatype SigningRequest = SigningRequest(
    credentials: Credentials,
    service: string,
    region: string,
    httpMethod: string,
    url: string,
    body: string,
    headers: Headers)

  // ---------------------------------------------------------------------------
  // Expiry judgment
  // ---------------------------------------------------------------------------

  /**
   * A cached value may be used at `now` when it is a real record that has at
   * least the full safety margin left before it expires.
   */
  predicate Usable(stored: Option<Entry>, now: int)
  {
    stored.Some? && stored.value.Creds? &&
    now + SOON_EXPIRES_MICROS <= stored.value.record.expirationTimeStamp
  }

  /**
   * The three-way judgment: absent (or falsy), expired, expiring within the
   * margin, or fresh. The stored value is passed back unchanged beside the
   * verdict.
   */
  function SoonExpiring(stored: Option<Entry>, now: int): (r: (Option<Entry>, bool))
    ensures r.0 == stored
    ensures r.1 <==> !Usable(stored, now)
    ensures stored.None? || stored.value.Empty? ==> r.1
  {
    if stored.None? || stored.value.Empty? then
      (stored, true)
    else
      var expiresAt := stored.value.record.expirationTimeStamp;
      if now < expiresAt then
        var timeDiff := expiresAt - now;
        if timeDiff < SOON_EXPIRES_MICROS then (stored, true) else (stored, false)
      else
        (stored, true)
  }

  /** The edges of the judgment: at expiry, one microsecond inside the margin, exactly on it. */
  lemma RefreshBoundaries(rec: Record, now: int)
    ensures now >= rec.expirationTimeStamp ==> SoonExpiring(Some(Creds(rec)), now).1
    ensures rec.expirationTimeStamp - now == SOON_EXPIRES_MICROS - 1 ==> SoonExpiring(Some(Creds(rec)), now).1
    ensures rec.expirationTimeStamp - now == SOON_EXPIRES_MICROS ==> !SoonExpiring(Some(Creds(rec)), now).1
  {
  }

  // ---------------------------------------------------------------------------
  // The cache, as a map
  // ---------------------------------------------------------------------------

  /** What a read of the credentials key yields: None when the key is missing. */
  function Lookup(m: map<string, Entry>): Option<Entry>
  {
    if CREDS_STORAGE_KEY in m then Some(m[CREDS_STORAGE_KEY]) else None
  }

  /** A write followed by a read yields what was written; no other key changes. */
  lemma StoreThenLookup(m: map<string, Entry>, e: Entry)
    ensures Lookup(m[CREDS_STORAGE_KEY := e]) == Some(e)
    ensures forall k :: k in m && k != CREDS_STORAGE_KEY ==>
              k in m[CREDS_STORAGE_KEY := e] && m[CREDS_STORAGE_KEY := e][k] == m[k]
  {
  }

  /** A delete followed by a read yields absent; deleting a missing key changes nothing. */
  lemma ClearThenLookup(m: map<string, Entry>)
    ensures Lookup(m - {CREDS_STORAGE_KEY}) == None
    ensures CREDS_STORAGE_KEY !in m ==> m - {CREDS_STORAGE_KEY} == m
    ensures (m - {CREDS_STORAGE_KEY}) - {CREDS_STORAGE_KEY} == m - {CREDS_STORAGE_KEY}
    ensures forall k :: k in m && k != CREDS_STORAGE_KEY ==>
              k in m - {CREDS_STORAGE_KEY} && (m - {CREDS_STORAGE_KEY})[k] == m[k]
  {
  }

  // ---------------------------------------------------------------------------
  // Request target
  // ---------------------------------------------------------------------------

  /**
   * The absolute target handed to the signer: scheme, host and path, and the
   * query after a `?` only when there is one.
   */
  function TargetUrl(host: string, path: string, query: string): (url: string)
    ensures |url| >= |"https://" + host + path|
    ensures url[..|"https://" + host + path|] == "https://" + host + path
    ensures query == "" ==> url == "https://" + host + path
    ensures '?' !in host && '?' !in path ==> ('?' in url <==> query != "")
  {
    var base := "https://" + host + path;
    if |query| > 0 then base + "?" + query else base
  }

  /**
   * Separates a URL at its first `?` into the part before it and the query
   * after it, as URL parsing does for a URL without a fragment.
   */
  function SplitAtQuery(url: string): (r: (string, string))
    ensures '?' !in r.0
    ensures '?' in url ==> url == r.0 + "?" + r.1
    ensures '?' !in url ==> r == (url, "")
  {
    if url == [] then
      ([], [])
    else if url[0] == '?' then
      ([], url[1..])
    else
      var rest := SplitAtQuery(url[1..]);
      assert url == [url[0]] + url[1..];
      ([url[0]] + rest.0, rest.1)
  }

  /** A `?` after a prefix free of `?` is the one the split stops at. */
  lemma {:induction false} SplitAfterPrefix(prefix: string, query: string)
    requires '?' !in prefix
    ensures SplitAtQuery(prefix + "?" + query) == (prefix, query)
    decreases |prefix|
  {
    var url := prefix + "?" + query;
    if prefix == [] {
      assert url[0] == '?' && url[1..] == query;
    } else {
      assert url[0] == prefix[0] && url[1..] == prefix[1..] + "?" + query;
      SplitAfterPrefix(prefix[1..], query);
      assert prefix == [prefix[0]] + prefix[1..];
    }
  }

  /**
   * Parsing the target again recovers the path and the query it was built
   * from, so the signer sees exactly the resource and query of the request.
   */
  lemma {:induction false} TargetUrlRoundTrip(host: string, path: string, query: string)
    requires '?' !in host && '?' !in path
    ensures SplitAtQuery(TargetUrl(host, path, query)) == ("https://" + host + path, query)
  {
    var base := "https://" + host + path;
    assert '?' !in base;
    if query != "" {
      SplitAfterPrefix(base, query);
    }
  }

  // ---------------------------------------------------------------------------
  // One call, and a sequence of calls, on the cache alone
  // ---------------------------------------------------------------------------

  /** The cache after one call at `now`, when the endpoint would answer `fetched`. */
  function AfterCall(m: map<string, Entry>, now: int, fetched: Result<Entry, FetchError>): map<string, Entry>
  {
    if Usable(Lookup(m), now) || fetched.Failure? then m
    else m[CREDS_STORAGE_KEY := fetched.value]
  }

  /** A call made at one instant, with the answer the endpoint would give. */
  datatype Call = Call(now: int, fetched: Result<Entry, FetchError>)

  /** How many fetches a run of calls performs, starting from cache `m`. */
  function Fetches(m: map<string, Entry>, calls: seq<Call>): nat
    decreases |calls|
  {
    if calls == [] then 0
    else
      (if Usable(Lookup(m), calls[0].now) then 0 else 1)
      + Fetches(AfterCall(m, calls[0].now, calls[0].fetched), calls[1..])
  }

  /** A successful fetch whose record is still usable at `now`. */
  predicate UsableFetch(fetched: Result<Entry, FetchError>, now: int)
  {
    fetched.Success? && Usable(Some(fetched.value), now)
  }

  /** While the cached record stays usable, no call fetches. */
  lemma {:induction false} NoFetchWhileUsable(m: map<string, Entry>, calls: seq<Call>)
    requires forall j :: 0 <= j < |calls| ==> Usable(Lookup(m), calls[j].now)
    ensures Fetches(m, calls) == 0
    decreases |calls|
  {
    if calls != [] {
      assert Usable(Lookup(m), calls[0].now);
      assert AfterCall(m, calls[0].now, calls[0].fetched) == m;
      forall j | 0 <= j < |calls[1..]|
        ensures Usable(Lookup(m), calls[1..][j].now)
      {
        assert calls[1..][j] == calls[j + 1];
      }
      NoFetchWhileUsable(m, calls[1..]);
    }
  }

  /**
   * When every record the endpoint hands out stays usable for the whole run,
   * the run fetches at most once: the first refresh is stored and reused.
   */
  lemma {:induction false} AtMostOneFetch(m: map<string, Entry>, calls: seq<Call>)
    requires forall i, j :: 0 <= i < |calls| && 0 <= j < |calls| ==>
               UsableFetch(calls[i].fetched, calls[j].now)
    ensures Fetches(m, calls) <= 1
    decreases |calls|
  {
    if calls != [] {
      var next := AfterCall(m, calls[0].now, calls[0].fetched);
      var rest := calls[1..];
      if Usable(Lookup(m), calls[0].now) {
        assert next == m;
        forall i, j | 0 <= i < |rest| && 0 <= j < |rest|
          ensures UsableFetch(rest[i].fetched, rest[j].now)
        {
          assert rest[i] == calls[i + 1] && rest[j] == calls[j + 1];
        }
        AtMostOneFetch(m, rest);
      } else {
        assert UsableFetch(calls[0].fetched, calls[0].now);
        assert Lookup(next) == Some(calls[0].fetched.value);
        forall j | 0 <= j < |rest|
          ensures Usable(Lookup(next), rest[j].now)
        {
          assert rest[j] == calls[j + 1];
          assert UsableFetch(calls[0].fetched, calls[j + 1].now);
        }
        NoFetchWhileUsable(next, rest);
      }
    }
  }

  // ---------------------------------------------------------------------------
  // The Auth object
  // ---------------------------------------------------------------------------

  /** What the signer is handed for record `rec`. */
  function SigningRequestFor(rec: Record, httpMethod: string, url: string, body: string, userAgent: string): SigningRequest
  {
    SigningRequest(
      Credentials(rec.accessKeyId, rec.secretAccessKey, rec.sessionToken),
      SERVICE, REGION, httpMethod, url, body, map["User-Agent" := userAgent])
  }

  class Auth {
    /** The shared cache directory's contents. */
    var cache: map<string, Entry>
    /** Host name of the API, a constant of the client. */
    const host: string
    /** User-Agent header value, a constant of the client. */
    const userAgent: string
    /** How many remote credential fetches this object has started. */
    ghost var fetches: nat

    /** Opens the shared cache, whose current contents are `disk`. */
    constructor (host: string, userAgent: string, disk: map<string, Entry>)
      ensures this.host == host && this.userAgent == userAgent
      ensures cache == disk && fetches == 0
    {
      this.host := host;
      this.userAgent := userAgent;
      cache := disk;
      fetches := 0;
    }

    /** Reads the credentials key; absent when it was never set or was cleared. */
    method GetCreds() returns (creds: Option<Entry>)
      ensures creds.Some? <==> CREDS_STORAGE_KEY in cache
      ensures creds.Some? ==> creds.value == cache[CREDS_STORAGE_KEY]
    {
      if CREDS_STORAGE_KEY in cache {
        creds := Some(cache[CREDS_STORAGE_KEY]);
      } else {
        creds := None;
      }
    }

    /** Overwrites the credentials key and returns its argument. */
    method SetCreds(creds: Entry) returns (r: Entry)
      modifies this`cache
      ensures r == creds
      ensures cache == old(cache)[CREDS_STORAGE_KEY := creds]
      ensures Lookup(cache) == Some(creds)
    {
      cache := cache[CREDS_STORAGE_KEY := creds];
      r := creds;
    }

    /** Deletes the credentials key; no error when it is already missing. */
    method ClearCachedCredentials()
      modifies this`cache
      ensures cache == old(cache) - {CREDS_STORAGE_KEY}
      ensures Lookup(cache) == None
      ensures CREDS_STORAGE_KEY !in old(cache) ==> cache == old(cache)
    {
      cache := cache - {CREDS_STORAGE_KEY};
    }

    /** Reads the cache and judges the value found there at `now`. */
    method CredsSoonExpiring(now: int) returns (creds: Option<Entry>, soonExpires: bool)
      ensures creds == Lookup(cache)
      ensures soonExpires <==> !Usable(creds, now)
    {
      creds := GetCreds();
      var judged := SoonExpiring(creds, now);
      soonExpires := judged.1;
    }

    /**
     * Refreshes the credentials when the judgment demands it, then signs a
     * request for `path` and `query` with the active record. `fetched` is what
     * the credentials endpoint answers if it is asked; `sign` is the signer.
     */
    method GetAuthHeaders(
      now: int, path: string, query: string, httpMethod: string, body: string,
      fetched: Result<Entry, FetchError>, sign: SigningRequest -> Headers)
      returns (r: Result<Headers, AuthError>)
      modifies this
      ensures cache == AfterCall(old(cache), now, fetched)
      ensures fetches == old(fetches) + (if Usable(old(Lookup(cache)), now) then 0 else 1)
      ensures Usable(old(Lookup(cache)), now) ==>
                cache == old(cache) &&
                r == Success(sign(SigningRequestFor(old(cache)[CREDS_STORAGE_KEY].record,
                                                    httpMethod, TargetUrl(host, path, query), body, userAgent)))
      ensures !Usable(old(Lookup(cache)), now) && fetched.Failure? ==>
                cache == old(cache) && r == Failure(FetchFailed(fetched.error))
      ensures !Usable(old(Lookup(cache)), now) && fetched.Success? ==>
                cache == old(cache)[CREDS_STORAGE_KEY := fetched.value] &&
                r == match fetched.value
                     case Empty => Failure(MissingCredentialField)
                     case Creds(rec) =>
                       Success(sign(SigningRequestFor(rec, httpMethod, TargetUrl(host, path, query), body, userAgent)))
    {
      var creds, soonExpires := CredsSoonExpiring(now);
      if soonExpires {
        fetches := fetches + 1;
        if fetched.Failure? {
          return Failure(FetchFailed(fetched.error));
        }
        var stored := SetCreds(fetched.value);
        creds := Some(stored);
      }
      if creds.None? || creds.value.Empty? {
        return Failure(MissingCredentialField);
      }
      var rec := creds.value.record;
      var credentials := Credentials(rec.accessKeyId, rec.secretAccessKey, rec.sessionToken);

      var fullUrl := "https://" + host + path;
      if |query| > 0 {
        fullUrl := fullUrl + "?" + query;
      }

      var request := SigningRequest(credentials, SERVICE, REGION, httpMethod, fullUrl, body,
                                    map["User-Agent" := userAgent]);
      r := Success(sign(request));
    }
  }
}
