# aioimdb credential cache and request preparation, in Dafny

This project models the `Auth` class of aioimdb (`aioimdb/auth.py`). The class
keeps one temporary credential record in a shared key-value cache under the key
`"aioimdb-credentials"`. Before each API request it judges that record. A record
that is absent, falsy, expired, or within 60 seconds of expiry is replaced by a
freshly fetched one, which is stored. Any other record is used unchanged. The
active record's access key, secret key and session token are then handed to a
request signer. The signer also receives the target URL `https://<HOST><path>`,
followed by `?<query>` only when the query is non-empty.

Everything is in `auth.dfy`, module `AioimdbAuth`:

- `SoonExpiring` is the pure expiry judgment. It takes an optional stored value
  and the current time. `Usable` is its independent reference: a real record
  with at least the 60-second margin left.
- Class `Auth` holds the cache as a `map<string, Entry>`. It has the store
  operations and `GetAuthHeaders`. A ghost counter `fetches` records every
  remote fetch that is started.
- `TargetUrl` builds the signing target. `SplitAtQuery` separates a URL at its
  first `?`. Together they give the round trip: the signer sees the same path
  and query.
- `AfterCall` and `Fetches` describe the cache over a run of calls.

Times are integer microseconds. A Python `datetime` difference is a whole number
of microseconds, so `total_seconds() < 60` is exactly `diff < 60_000_000`. The
stored value is `Entry = Empty | Creds(record)`. `Empty` stands for any value
Python treats as false, such as a stored `None` or `{}`. A missing key is
`None` of `Option`.

## Model

| member | source | states |
|---|---|---|
| AioimdbAuth.SoonExpiring | aioimdb/auth.py:51-63 | the stored value is returned unchanged; refresh is demanded exactly when the value is not a record with at least 60 s (60 000 000 µs) left, so a falsy or absent value, an expired record and a record inside the margin all refresh |
| AioimdbAuth.RefreshBoundaries | aioimdb/auth.py:57-63 | a record at or past its expiry refreshes; one with 60 s minus 1 µs left refreshes; one with exactly 60 s left does not (the strict `<`) |
| AioimdbAuth.StoreThenLookup | aioimdb/auth.py:38-45 | after a write of the credentials key, a read returns what was written; every other key keeps its value |
| AioimdbAuth.ClearThenLookup | aioimdb/auth.py:47-49 | after a delete, a read yields absent; deleting a missing key changes nothing; deleting twice equals deleting once; other keys keep their values |
| AioimdbAuth.TargetUrl | aioimdb/auth.py:78-81 | the target starts with `https://` + host + path; it is exactly that when the query is empty; when host and path hold no `?`, the target holds a `?` if and only if the query is non-empty |
| AioimdbAuth.SplitAtQuery | aioimdb/auth.py:78 | the part before the query holds no `?`; a URL with a `?` is that part, `?`, then the query; a URL without one has an empty query |
| AioimdbAuth.SplitAfterPrefix | aioimdb/auth.py:78-81 | splitting `prefix ? query`, where the prefix holds no `?`, gives back exactly the prefix and the query |
| AioimdbAuth.TargetUrlRoundTrip | aioimdb/auth.py:78-81 | splitting the built target recovers `https://` + host + path and the query it was built from |
| AioimdbAuth.NoFetchWhileUsable | aioimdb/auth.py:65-68 | a run of calls made while the cached record stays usable performs no fetch |
| AioimdbAuth.AtMostOneFetch | aioimdb/auth.py:65-68 | when every fetched record stays usable for the whole run, the run fetches at most once: the first refresh is stored and reused |
| AioimdbAuth.Auth.constructor | aioimdb/auth.py:35-36 | the object opens the shared cache with its current contents and has started no fetch |
| AioimdbAuth.Auth.GetCreds | aioimdb/auth.py:38-40 | the read yields a value exactly when the credentials key is present, and then the stored value |
| AioimdbAuth.Auth.SetCreds | aioimdb/auth.py:42-45 | returns its argument; the cache is the old cache with only the credentials key overwritten |
| AioimdbAuth.Auth.ClearCachedCredentials | aioimdb/auth.py:47-49 | the cache is the old cache without the credentials key; a cache without the key is left as it was |
| AioimdbAuth.Auth.CredsSoonExpiring | aioimdb/auth.py:51-63 | returns what the cache holds under the credentials key, and demands refresh exactly when that value is not usable at `now` |
| AioimdbAuth.Auth.GetAuthHeaders | aioimdb/auth.py:65-94 | fetches (counter +1) exactly when the cached value is not usable. On a usable cache it leaves the cache alone and signs with the cached record. A failed fetch aborts with the fetch error before any store. A successful fetch is stored and signed with. A falsy fetched value fails on its missing keys. The signer gets the active record's three keys, service `execute-api`, region `us-east-1`, the given method and body, a `User-Agent` header and `TargetUrl` |

## Left out

- The remote fetch `_get_credentials` (aioimdb/auth.py:18-28) is not modelled. It is an HTTP POST with status check and JSON decoding. Its outcome is the parameter `fetched`: a `FetchError` or the `resource` value.
- The on-disk cache (diskcache, the temporary directory, cross-process atomicity) is an in-memory map. A storage error is not modelled.
- Parsing the ISO-8601 `expirationTimeStamp` and reading the clock are not modelled. The expiry and `now` are integer microseconds given as inputs. The `TypeError` for comparing a naive timestamp with an aware one is not modelled either.
- URL parsing of `url_path` is not modelled. The path and query are taken as given strings. `SplitAtQuery` captures only how a query is separated at the first `?`; schemes, network locations and `#` fragments are not modelled.
- SigV4 signing (botocore) is the opaque function parameter `sign`. The headers it adds are its own business.
- aioimdb/constants.py is not part of this model. `HOST` and `USER_AGENT` are constructor parameters of `Auth`.
- The async structure and concurrent duplicate fetches are not modelled. Calls are sequential.
- A non-empty record that lacks one of the keys is not modelled. Records always carry all four fields; only a falsy value fails with `MissingCredentialField`.
