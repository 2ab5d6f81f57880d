# nnmware request middleware, modelled in Dafny

This project models the decision logic of `core/middleware.py` from the nnmware
Django application:

- **`get_page`**, the page number the pagination middleware exposes on a
  request: the `page` request parameter read as an integer, or page 1 when the
  parameter is missing or is not an integer (module `Pagination`,
  `pagination.dfy`).
- **`VisitorHitMiddleware.process_request`**, which decides whether a request is
  logged as a visitor hit and fills in the hit row (module `VisitorHits`,
  `visitor_hits.dfy`). AJAX requests, requests under the admin prefix
  (`settings.ADMIN_SYSTEM_PREFIX`, a parameter here) and requests whose user
  agent, cut to 255 characters, contains a crawler keyword from
  `UNTRACKED_USER_AGENT` are not logged. For the rest, the hit stores the user
  when authenticated, the truncated user agent, the client address, the
  session key (or a made-up `ip:ua` key cut to 40 characters), the referrer,
  the host name cut to 100 characters, the full path and the time.

The request is a value (`VisitorHits.Request`) holding what the middleware
reads: the AJAX flag, the path, the `request.META` header dictionary as a
`map<string, string>`, the session key, the authentication flag and user, the
`is_secure()` flag and `get_full_path()`. The clock reading `datetime.now()` is
the parameter `now`. `ProcessRequest` returns the hit it would save as an
`Option<Hit>`, `None` for each early return. Python's `s[:n]`, `startswith`
and `find` are `Text.Truncate`, the sequence prefix `<=` and `Text.Find`
(`text.dfy`). `Wrappers.Option` (`wrappers.dfy`) is the optional value.

## Model

| member | source | states |
|---|---|---|
| `Text.Truncate` | core/middleware.py:81 | `s[:n]` is a prefix of `s` of length `min(n, len(s))` |
| `Text.FindFrom` | core/middleware.py:84 | the search gives -1 exactly when `k` occurs nowhere from `start` on, and otherwise the lowest such occurrence |
| `Text.Find` | core/middleware.py:84 | `find` gives -1 exactly when the keyword is not a substring, otherwise the first position where it occurs |
| `Text.TruncatedContains` | core/middleware.py:81-85 | cutting the user agent short can only remove keyword occurrences, never create one |
| `Text.EarlyOccurrenceKept` | core/middleware.py:81-85 | an occurrence that ends within the first `n` characters is still found after `[:n]` |
| `Pagination.ParseInt` | core/middleware.py:29 | `int(s)` succeeds exactly on a non-empty string of digits, optionally after one `+` or `-`; a negative result needs a leading `-`, and a leading `-` never gives a positive number |
| `Pagination.ParseShowInt` | core/middleware.py:29 | every integer written in decimal parses back to itself (round trip) |
| `Pagination.GetPage` | core/middleware.py:23-31 | a `page` that parses gives its parsed value; a missing `page` key or an unparseable value gives 1 |
| `Pagination.NonCanonicalNumerals` | core/middleware.py:29 | leading zeros and a leading `+` do not change the value, a leading `-` negates it (`"007"` is 7, `"+5"` is 5, `"-0"` is 0) |
| `Pagination.GetPageReturnsParsed` | core/middleware.py:28-31 | a `page` holding the decimal numeral of any integer, zero and negatives included, yields that integer unclamped |
| `Pagination.GetPageMalformed` | core/middleware.py:28-31 | a `page` value with a character that is neither a digit nor a leading sign yields 1 |
| `Pagination.GetPageEmptyOrSign` | core/middleware.py:28-31 | an empty `page` or a bare sign yields 1 |
| `VisitorHits.MetaGet` | core/middleware.py:81-102 | `request.META.get(key, '')`: the entry under `key` when present, the empty string otherwise |
| `VisitorHits.MatchesAny` | core/middleware.py:82-85 | the first-match keyword loop as a predicate: a match of the first keyword blocks at once, and a block always comes from some keyword occurring in the user agent |
| `VisitorHits.ShouldTrack` | core/middleware.py:76-85 | the three early returns: a tracked request is never AJAX and never under the admin prefix (defined as not AJAX, not under the prefix and no keyword match in the truncated user agent) |
| `VisitorHits.TruncatedUserAgent` | core/middleware.py:81 | the user agent examined and stored is a prefix of the `HTTP_USER_AGENT` header of at most 255 characters, empty when the header is missing |
| `VisitorHits.MatchesAnyIff` | core/middleware.py:82-85 | the first-match keyword loop blocks exactly when some keyword is a substring of the user agent |
| `VisitorHits.KeywordOrderIrrelevant` | core/middleware.py:82-85 | reordering (or repeating) the keywords never changes whether a user agent is blocked |
| `VisitorHits.FindKeyword` | core/middleware.py:82-85 | the loop over the keywords reports a match exactly when some keyword occurs in the user agent |
| `VisitorHits.ShouldTrackIff` | core/middleware.py:76-85 | a request is logged exactly when it is not AJAX, its path does not start with the admin prefix and no keyword occurs in the first 255 characters of its user agent |
| `VisitorHits.EarlyKeywordBlocks` | core/middleware.py:81-85 | a keyword occurrence ending within the first 255 characters of the header prevents logging |
| `VisitorHits.CleanUserAgentTracked` | core/middleware.py:76-85 | a non-AJAX request outside the admin prefix whose full user agent holds no keyword is logged |
| `VisitorHits.NoOccurrenceInRun` | core/middleware.py:84 | a keyword whose first character is not `c` is never found in a run of `c` characters |
| `VisitorHits.NoKeywordInRun` | core/middleware.py:63-70 | no keyword of the blocklist occurs in a run of `x` characters (no keyword starts with `x`) |
| `VisitorHits.LateKeywordIgnored` | core/middleware.py:81-85 | a user agent of 255 characters followed by `Googlebot` contains a keyword yet is logged: matches beyond position 255 do not block |
| `VisitorHits.ReferrerAsWritten` | core/middleware.py:101 | the referrer as `process_request` looks it up is the `HTTP_REFERRER` entry, or empty when that key is absent |
| `VisitorHits.ReferrerAsWrittenMissesHeader` | core/middleware.py:101 | a request carrying a non-empty `Referer` header still gets an empty referrer from the lookup as written |
| `VisitorHits.Referrer` | core/middleware.py:101 | the stored referrer is the `HTTP_REFERER` entry, or empty when the header is missing |
| `VisitorHits.SessionKeyFor` | core/middleware.py:92-99 | a non-empty session key is kept unchanged; otherwise the key is the prefix of `ip:ua` of length `min(40, len(ip)+1+len(ua))` |
| `VisitorHits.FallbackKeyKeepsAddress` | core/middleware.py:96-98 | a made-up session key starts with the whole address and `:` whenever the address has fewer than 40 characters |
| `VisitorHits.BuildHit` | core/middleware.py:86-103 | the user is set exactly when authenticated; user agent and host name are prefixes of their headers of at most 255 and 100 characters; a missing `REMOTE_ADDR`, `REMOTE_HOST` or referrer gives the empty string; the session key is the one `SessionKeyFor` gives, so a made-up key is the prefix of `ip:ua` of length `min(40, len(ip)+1+len(ua))`; secure flag, URL and date are copied |
| `VisitorHits.ProcessRequest` | core/middleware.py:75-105 | AJAX requests and paths under the admin prefix never yield a hit; a hit is yielded exactly when the request should be tracked, and it is the row `BuildHit` describes |

## Findings

| source | as written | input that shows it | evidently intended | confidence | as-written member | corrected member |
|---|---|---|---|---|---|---|
| core/middleware.py:101 | the referrer is read from `request.META['HTTP_REFERRER']` | a request whose `Referer` header is `http://example.com/`: `META` holds `HTTP_REFERER` and no `HTTP_REFERRER`, so the hit's referrer is empty | read `HTTP_REFERER`, the key under which the `Referer` header is stored (section 4.1.18 of RFC 3875) | high, not executed | `VisitorHits.ReferrerAsWrittenMissesHeader` | `VisitorHits.Referrer` |

`BuildHit` and `ProcessRequest` use the corrected lookup, `Referrer`; the lookup
as written is kept as `ReferrerAsWritten`.

## Left out

- `ThreadLocalsMiddleware` and `get_request` (thread-local storage of the current request): per-thread state, concurrency is outside the model.
- `PaginationMiddleware.process_request`: it only attaches `get_page` to the request class as a property; `GetPage` is the logic.
- `AjaxMessagingMiddleware.process_response`: JSON decoding and encoding and Django's message store are library code not part of this model.
- apps/realty/models.py: declarative ORM schema without behaviour of its own.
- `request.REQUEST` is Django's merged view of the POST and GET parameters; the model takes that merged view as one map and does not model the merge or multi-valued parameters.
- `Pagination.ParseInt`: Python's `int()` also accepts surrounding whitespace, underscores between digits and non-ASCII digits; the model accepts only an optional `+`/`-` and ASCII digits. The `TypeError` case cannot arise for string parameters.
- `VisitorHits.ProcessRequest`: creating the `VisitorHit` object, `v.save()` and its database write are not modelled; the hit is returned as a value instead of being filled in on an ORM object.
- `datetime.now()` is the parameter `now`; `request.is_ajax()`, `request.is_secure()`, `request.user.is_authenticated()` and `request.get_full_path()` are fields of the request value.
- The session is reduced to its key: a request without a session and a session whose key is `None` are both `sessionKey == None`.
- Strings are sequences of characters; Python's code-point slicing is taken to be character slicing.
