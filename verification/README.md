# Verified model of the MCP Studio core

A Dafny model of the parts of the studio where a small mistake is expensive: the SQL
placeholder compiler of the preview, the token and session protocol over the database
and Redis, the rate limiters, the audit trail with rollback, export and import, and the
two-factor login. `dafny verify dfyconfig.toml` checks everything.

| file | what it models |
|---|---|
| `Prelude.dfy` | `Option`, `Result`, decimal numbers |
| `SqlScan.dfy` | the `:name` scanner, as a hand-written left-to-right scan over characters |
| `SqlPyformat.dfy` | the `%(name)s` dialects and Python's `%` operator |
| `SqlPositional.dfy` | the `$n` dialects and BigQuery's `@name`, with what each server makes of them |
| `SqlTop.dfy`, `SqlLimit.dfy` | the `TOP` contexts of a query and their inlining for SQL Server, and the row-limit stage |
| `SqlPreview.dfy` | the branches put together, and one theorem per dialect |
| `SqlMssql.dfy` | SQL Server from the source query to what is executed |
| `SqlPipeline.dfy` | the limit stage and the substitution one after the other, per dialect |
| `Credentials.dfy` | hashes with a secret and a salt, and the 12-character prefix |
| `AgentProtocol.dfy` | tokens, sessions and clients in two stores as a step machine: interleaving, time, key loss, failing Redis calls, crashes |
| `AgentCoherence.dfy` | the invariant of that machine, one lemma per event |
| `AgentRuns.dfy` | what follows for every run, exactly when a revocation is final, and runs in which it is not |
| `AgentUses.dfy` | what storing, syncing and using a token leaves in Redis, and how long a session that is used stays valid there |
| `AgentAuth.dfy` | the backend's token service as a class, and runs of its requests |
| `SlidingWindow.dfy` | the evicting per-address limiter against the log of what it allowed |
| `AttemptCounters.dfy` | INCR/EXPIRE counters: requests per minute, and the lockout with its two counters |
| `ActivityLog.dfy` | the trimmed activity list under interleaving |
| `History.dfy` | snapshots, changes, retention, optimistic locking and rollback of prompts |
| `ToolHistory.dfy` | tools with their parameters over runs of updates, deletions and rollbacks |
| `ExportImport.dfy` | export and import by name |
| `TwoFactor.dfy` | the login state machine with recovery codes |
| `ToolNames.dfy` | the copy-name loop |
| `Metrics.dfy`, `Latency.dfy` | the per-tool summary with error attribution, and the p95 bucket |

## Conventions

- A hash is a secret with a salt, and verifies exactly its own secret. So "a secret
  verifies against at most one row" is a statement about secrets being distinct, which the
  model derives from fresh draws.
- Ids, secrets, salts and ciphertexts are drawn by the caller; a draw is required to be
  fresh where the program relies on randomness. The clock is a parameter.
- Regular expressions are written out as scanners. The word and space characters outside
  ASCII are parameters (`u`, `w`), so that every result holds for any Unicode table.
- Executed SQL is a list of pieces, characters and whole values, so that "the value stands
  where the placeholder stood" does not depend on how values are printed.
- What a request does is said twice: by a function that its method is proved against, and, in
  the `…Exact` lemmas and their like, by conditions on inputs and fields that do not mention
  that function, with the constants of the program written out.
- Every lemma switches automatic induction off, so that each proof is the one written down.
- Where the program changes state in place, the model is a class whose methods are proved
  against a function of the old state; the runs are proved about those functions.

## Where the code does not do what one would expect

Each of these has a lemma with the exact condition, or a concrete run.

- MySQL, ClickHouse, Snowflake, Cassandra: right exactly when there is a parameter or no
  placeholder. With an empty dictionary the text is not converted, and a placeholder stays
  in it (`SqlPreview.PyformatDialects`); the same holds of the PostgreSQL family.
- PostgreSQL family: besides, the text must not clash with the numbers: a `$digit` of its
  own outside an identifier is taken for a parameter, and a placeholder directly after an
  identifier, which can end in `$` or in any character outside ASCII, becomes a part of it
  (`SqlPreview.PostgresqlDialects`, `SqlPreview.ClashNeeds`). BigQuery: right exactly when
  every placeholder has a value and no `@` stands directly before a word character
  (`SqlPreview.BigqueryDialect`).
- SQL Server: a name is used up by its first `TOP`, so a second `TOP :n`, or a `:n` outside
  `TOP`, is left without a value; and when nothing is left to bind the driver is called
  without parameters and does not format, so every `%` stays doubled. `SqlMssql.MssqlDialect`
  says when all goes well, by the source query and the parameters alone;
  `SqlMssql.NestedTopFails` is `SELECT TOP :n * FROM (SELECT TOP :n * FROM t) x`.
- A revocation of a token is final, so that its hash is never in Redis again, exactly when
  no request has still to write that hash as it starts, be it the generation of the token or
  a startup sync (`AgentRuns.RevocationExact`, and `AgentRuns.DeadForGood` for every kind of
  revocation at any time). Otherwise the write can come last, and validation then accepts the
  revoked token until it expires (`AgentRuns.OverlappedTokenAccepted`). A deletion that fails
  (`AgentRuns.FailedDeletionLeavesRevokedHash`) and a sync that reads the rows before a
  client's revocation commits (`AgentRuns.SyncLeavesRevokedHash`) leave such a hash as well.
- The sessions of a revoked client are revoked for good exactly when they all are now and no
  exchange or refresh that checked the client before is still under way
  (`AgentRuns.SealedForGood`); one that is opens a live session (`AgentRuns.StrayStaysLive`).
- Two unrevoked agent tokens with the same 12-character prefix make introspection fail to
  answer, and keep a token from being accepted (`AgentAuth.IntrospectionAgrees`,
  `AgentAuth.GeneratedTokenValidates`).
- The sliding window with a limit below 1 lets the first request of an unknown address
  through (`SlidingWindow.Limiter.Allow`).
- The lockout admits `4 + k` failures, not 5, when `k` attempts overlap, and the bound is
  reached (`AttemptCounters.LockoutBoundIsTight`). A login with the right password deletes
  the counter of the 2FA codes too, so the limit on codes holds only between two such
  logins: `5 * n` codes can fail one after the other without one being accepted
  (`AttemptCounters.LoginsResetCodes`).
- A rollback restores an old version number plus one, and a prompt that was deleted comes
  back at version 1, so the optimistic lock can accept a stale edit
  (`History.LockMissesRollback`); `History.LockMissesExactly` says in which runs it does.
- The entry of a tool's rollback does not hold the parameters, so undoing the rollback does
  not bring them back (`ToolHistory.RollbackUndoneAfterRun`).
- An empty sensitive field is encrypted by an import and so comes back as a mask; a
  resource whose connection is gone comes back without one
  (`ExportImport.RoundTrip`). A dry run does not notice that a payload repeats the name of a
  new prompt, although the import then fails (`ExportImport.DryRunForecasts`).

## Model

| member | source | states |
|---|---|---|
| SqlScan.ScanFindsEveryMatch | backend/app/routers/preview.py:135 | the placeholders found are exactly the positions where the pattern matches the whole text, so a `::cast` or `12:30` is left alone and no match hides another |
| SqlScan.ScanKeepsText | backend/app/routers/preview.py:135 | the tokens put together again are the text, from any starting state |
| SqlScan.ScanWellScanned | backend/app/routers/preview.py:135 | names are non-empty, made of word characters and maximal |
| SqlPyformat.ScanOfEscape | backend/app/routers/preview.py:114-118 | doubling every percent sign before scanning is the same as scanning first and doubling the literal ones |
| SqlPyformat.FormatIsBind | backend/app/routers/preview.py:114-124 | Python's `%` on the converted text is replacing each scanned name by its value and each doubled percent by one, down to which missing name is reported |
| SqlPyformat.ConvertedFormatsToBind | backend/app/routers/preview.py:114-118 | the same for escape, convert and format together, for every text and parameter map |
| SqlPositional.NamesByFirstUse | backend/app/routers/preview.py:129-137 | the argument names are those of the placeholders, once each, in the order of first use |
| SqlPositional.PgBindOfText | backend/app/routers/preview.py:126-137 | the server, which reads identifiers as a whole and `$k` elsewhere, takes the numbered text for the intended pieces if and only if the source has no clash: no literal `$digit` outside an identifier, and no placeholder that continues one |
| SqlPreview.ClashNeeds | backend/app/routers/preview.py:126-137 | a clash takes a `$` directly before a digit in the original text, or a placeholder directly after a character that an identifier may contain |
| SqlTop.InlineTopConsumes | backend/app/routers/preview.py:93-109 | exactly the parameters named in a `TOP` context leave the dictionary |
| SqlTop.TopAtExact | backend/app/routers/preview.py:105-109 | the matcher finds a `TOP` context at the start of a text if and only if the pattern fits there in any way, and takes the longest text that fits |
| SqlTop.SegmentsExact | backend/app/routers/preview.py:105-109 | from left to right, the cut takes at each word boundary what the pattern fits, and nothing else |
| SqlTop.TopTextIs | backend/app/routers/preview.py:95-103 | what is written in place of a context is `TOP`, the decimal number of the value, or 100 for a value that is none, and a space |
| SqlMssql.SegmentsWellCut | backend/app/routers/preview.py:105-109 | the text cut at its `TOP` contexts joins to the text again, and each such context starts at a word boundary with the letters of `TOP` and holds no percent sign |
| SqlMssql.InlineTopExact | backend/app/routers/preview.py:93-109 | using names up makes no difference to writing every `TOP` parameter out, if and only if no name that has a value is in two `TOP` contexts |
| SqlLimit.LimitKeepsPlaceholders | backend/app/routers/preview.py:59-77 | the row-limit stage never adds, drops or reorders a placeholder, on any dialect |
| SqlLimit.LimitIsWritten | backend/app/routers/preview.py:59-77 | outside SQL Server a text with the word LIMIT stays as it is; any other loses its spaces at the end and the semicolons before them, and gets ` LIMIT ` and the decimal number asked for. For SQL Server the same with TOP: a text that starts with SELECT gets ` TOP ` and the number behind that word, and any other is only trimmed |
| SqlLimit.LimitIdempotent | backend/app/routers/preview.py:59-77 | outside SQL Server the result carries the LIMIT that is asked for, unless there was one, and a second run changes nothing |
| SqlPreview.ConvertPg | backend/app/routers/preview.py:126-137 | the one-pass loop that numbers names as it meets them computes the names and the numbered text |
| SqlPreview.InlineTopParams | backend/app/routers/preview.py:93-109 | the substitution loop that pops used parameters |
| SqlPreview.SubstituteParams | backend/app/routers/preview.py:80-157 | the branch of every dialect: which text and which arguments go to the driver, and none when there are no parameters |
| SqlPreview.PyformatDialects | backend/app/routers/preview.py:114-149 | compiler correctness for MySQL, ClickHouse, Snowflake and Cassandra: what the driver sends is the reference substitution if and only if there is a parameter or no placeholder |
| SqlPreview.PostgresqlDialects | backend/app/routers/preview.py:126-137 | for PostgreSQL, Greenplum and Supabase, with a missing value being the empty string: correct if and only if nothing in the source clashes with the numbers and there is a parameter or no placeholder |
| SqlPreview.PostgresqlRoundTrip | backend/app/routers/preview.py:126-137 | reading every `$k` as the k-th name gives back the source text, when nothing clashes |
| SqlPreview.BigqueryDialect | backend/app/routers/preview.py:151-154 | for every text and dictionary, the empty one included: executed with all its values if and only if every placeholder has a value and the text has no `@` before a word character |
| SqlMssql.MssqlDialect | backend/app/routers/preview.py:90-112 | for every text and dictionary: what is executed is the source query with each `TOP` parameter written out and every other placeholder bound, if and only if every placeholder has a value and, unless the dictionary is empty, no name with a value is in two `TOP` contexts, none is used outside `TOP` as well, and a parameter is left to bind or the text has no percent sign |
| SqlMssql.RepeatGoesWrong | backend/app/routers/preview.py:93-112 | a name with a value in two `TOP` contexts always makes the driver execute something else, or fail |
| SqlMssql.NestedTopFails | backend/app/routers/preview.py:93-112 | a query with a row limit in the outer and in the inner select, with one parameter for both, on which it does |
| SqlPipeline.PyformatPreview | backend/app/routers/preview.py:59-149 | limit stage and substitution together: what is executed is the query with the limit that was asked for and every value in its place if and only if there is a parameter or the original query has no placeholder |
| SqlPipeline.PostgresqlPreview | backend/app/routers/preview.py:59-137 | the same for the PostgreSQL family, with the clash condition on the original query |
| SqlPipeline.BigqueryPreview | backend/app/routers/preview.py:59-154 | the same for BigQuery, with its condition on the original query |
| SqlPipeline.MssqlPreview | backend/app/routers/preview.py:59-112 | the same for SQL Server, with the conditions on names, `TOP` contexts and percent signs on the original query: the inserted `TOP n` is no context and makes none |
| AgentCoherence.StepInv | backend/agent_mcp/auth.py:64-243 | every step of creating, exchanging, refreshing, revoking, syncing, using and validating keeps the two stores coherent, in any interleaving, with keys lost, Redis calls failing and requests ending half-way |
| AgentCoherence.RevokeTokenInv | backend/app/services/agent_auth.py:307-326 | revoking a token keeps the stores coherent, and marks the trouble when its hash is still to be written |
| AgentCoherence.RevokeClientInv | backend/app/services/agent_auth.py:762-791 | revoking a client keeps the stores coherent although the entries are deleted before the commit that revokes the rows, and although sessions may be opened meanwhile |
| AgentCoherence.RefreshInv | backend/app/services/agent_auth.py:484-576 | rotation keeps the stores coherent, also beside another refresh of the same session: one commit revokes the old session and adds the new row, then the old entry is deleted before the new one is written |
| AgentCoherence.StartSyncInv | backend/app/services/agent_auth.py:93-211 | the startup sync keeps the stores coherent at any time, also while requests run: it writes rows that were unrevoked when it read them |
| AgentCoherence.FailInv | backend/app/services/agent_auth.py:69-90 | a request whose Redis call raises goes on as its try-blocks say, with the writes of the failed block dropped, and coherence is kept |
| AgentCoherence.AbortInv | backend/app/services/agent_auth.py:69-90 | a request that ends half-way keeps coherence, so a crash of the backend, which ends them all, does |
| AgentRuns.CacheCoherence | backend/agent_mcp/auth.py:79-243 | in every reachable state a Redis entry that carries a hash belongs to a row with that hash, which is unrevoked unless the deletion of the entry is still to come, was lost, or was overlapped by a write |
| AgentRuns.SmoothIsCoherent | backend/app/services/agent_auth.py:307-326 | it is enough that no revocation of the key starts while its hash is still to be written, no sync writes it before a client's commit, and no deletion of it is lost: then the exceptions vanish, and a revoked token or session is dead once its deletion is done |
| AgentRuns.DeadForGood | backend/app/services/agent_auth.py:41-326 | in every state and for every revoked key: no run ever puts its hash into Redis again if and only if there is none and no request has still to write it |
| AgentRuns.SettledIsDead | backend/app/services/agent_auth.py:307-791 | in every reachable state a revoked token, a session of a revoked client or a refreshed one is dead once no deletion of it is pending, unless one was lost or overlapped |
| AgentRuns.SealedForGood | backend/app/services/agent_auth.py:409-791 | in every state and for every revoked client: over all runs its sessions stay revoked if and only if they all are and no exchange or refresh that has checked before is under way |
| AgentRuns.CommitSeals | backend/app/services/agent_auth.py:771-790 | the commit of a client's revocation brings that about if and only if its list covers every unrevoked session and none is being opened |
| AgentRuns.QuietRevocationCovers | backend/app/services/agent_auth.py:762-791 | which holds when none was being opened as the revocation started and no request to open one arrives before the commit |
| AgentRuns.RevocationCommits | backend/app/services/agent_auth.py:762-791 | Redis failures do not stop a client's revocation: whichever deletions fail, client and sessions end up revoked, and every entry whose deletion did not fail is gone |
| AgentRuns.RevocationExact | backend/app/services/agent_auth.py:307-326 | in every state, after an uninterrupted revocation of a token no run ever shows its hash in Redis again if and only if no request had still to write it; its index entry is gone |
| AgentRuns.OverlapLeavesRevokedHash | backend/app/services/agent_auth.py:54-90 | a pending write of the hash, at any place in a generation or a sync, can leave the revoked hash in Redis after the revocation with no deletion to come |
| AgentRuns.OverlappedTokenAccepted | backend/agent_mcp/auth.py:79-136 | and a validation then accepts the revoked token as long as it has not expired |
| AgentRuns.FailedDeletionLeavesRevokedHash | backend/app/services/agent_auth.py:317-326 | a deletion that fails, which the program only logs, leaves the revoked hash as well |
| AgentRuns.SyncLeavesRevokedHash | backend/app/services/agent_auth.py:150-203 | so does a startup sync that reads a session between the deletions and the commit of its client's revocation |
| AgentRuns.StaleHashAccepted | backend/agent_mcp/auth.py:79-243 | in every reachable state a hash of a revoked row is accepted by an undisturbed validation, if an agent token has not expired |
| AgentRuns.StrayStaysLive | backend/app/services/agent_auth.py:409-576 | in every state an exchange or a refresh that has checked its client goes on to open a session that is live and has its hash in Redis, revoked or not the client may be |
| AgentRuns.RevokedNeverAccepted | backend/agent_mcp/auth.py:79-136 | once a token or session is revoked, without a hash and without one to be written, no validation of its secret that starts later is accepted, however usage writes, index back-fills, syncs, failures, expiry and lost keys interleave |
| AgentRuns.AcceptedIsGenuine | backend/agent_mcp/auth.py:64-243 | whatever a validation accepts, by index or by scan, is a row whose hash verifies the presented secret and, for an agent token, that had not expired |
| AgentRuns.ValidationCompletes | backend/agent_mcp/auth.py:79-243 | in every reachable state, whatever the indexes hold, an undisturbed validation of a stored, unexpired token or session accepts it, by an index or by scans that yield any other keys first, up to the 25 of each kind that are looked at |
| AgentUses.CompletesAndRenews | backend/agent_mcp/auth.py:79-243 | and it leaves Redis as the next row says: entry and index renewed for the idle timeout |
| AgentUses.UseRenews | backend/agent_mcp/auth.py:79-243 | whatever way an undisturbed validation takes, if it accepts a session, its entry and the index entry of the presented prefix lead to it and live for the idle timeout of the entry from then on, an hour if it has none; if it accepts an agent token, nothing changes but an index entry with the remaining lifetime where there was none |
| AgentUses.RedisSliding | backend/agent_mcp/auth.py:114-136 | from every state in which entry and index entry were last renewed at some time, all uses are accepted if and only if each comes sooner than the idle timeout after the one before, whatever else happens as long as it leaves the two alone |
| AgentUses.ExchangedSlides | backend/app/services/agent_auth.py:459-477 | so it is with every session from its exchange on |
| AgentUses.NewIsStored | backend/app/services/agent_auth.py:69-86 | what a generation or an exchange leaves in Redis: the hash and fields of the row, and an index entry for its prefix, both for the given time, and nothing else changed |
| AgentUses.RefreshIsStored | backend/app/services/agent_auth.py:521-572 | the old session's entry is gone, the new one is stored with its index entry, and the rows are swapped |
| AgentUses.SyncStores | backend/app/services/agent_auth.py:93-211 | a startup sync that nothing disturbs leaves exactly the live rows it read in Redis until they expire, tokens with an index entry and sessions without |
| AgentUses.BackendUseDone | backend/app/services/agent_auth.py:614-671 | the backend's own validation renews the entry, and back-fills the index if it had to scan |
| AgentUses.RaisedCall | backend/agent_mcp/auth.py:79-243 | a look-up that raises ends the validation without an answer, a usage time that cannot be written does not keep it from accepting, and after a renewal that raises it looks on |
| AgentUses.FailedWriteEnds | backend/app/services/agent_auth.py:69-90 | a Redis write of a generation, an exchange, a refresh or a sync that raises drops the writes after it |
| AgentAuth.GeneratedTokenValidates | backend/app/services/agent_auth.py:41-90 | after any further run a generated token is accepted if and only if it has not expired, was not revoked, and no other live token shares its prefix; other lifetimes than 15 minutes to 7 days generate nothing |
| AgentAuth.RevokedTokenRefused | backend/app/services/agent_auth.py:307-326 | after any further run a revoked token is refused by validation and introspection, and revoking it changes no other row |
| AgentAuth.Backend.ValidateOauthToken | backend/app/services/agent_auth.py:579-673 | the fast path refines the scan: whatever the prefix index holds, result and new state are those of the plain scan; a token is accepted if and only if it is the access token of an unrevoked, unexpired session of an active client, and then the index leads to it |
| AgentAuth.FastPathAgrees | backend/app/services/agent_auth.py:592-649 | a match behind an index entry is the one the scan would have found |
| AgentAuth.Backend.ExchangeCredentials | backend/app/services/agent_auth.py:409-481 | succeeds if and only if the client is there, not revoked, and the secret is its own; then one session is opened and indexed, and otherwise nothing changes |
| AgentAuth.Backend.RefreshAccessToken | backend/app/services/agent_auth.py:484-576 | succeeds if and only if the token is the refresh token of an unrevoked session of an active client; then that session is revoked and one is created and indexed, and otherwise nothing changes |
| AgentAuth.ExchangeExact | backend/app/services/agent_auth.py:409-481 | the session that an exchange opens has the drawn secrets, the client and the client's timeout; its access token is accepted at once and its refresh token can be redeemed |
| AgentAuth.RefreshExact | backend/app/services/agent_auth.py:484-576 | the session that a refresh opens is of the same client; the one whose token it was is revoked and no other row changes |
| AgentAuth.ValidateExact | backend/app/services/agent_auth.py:579-673 | an accepted access token is answered with the client of its session, and that session alone is renewed |
| AgentAuth.EverySessionIsEarned | backend/app/services/agent_auth.py:409-576 | over any run, every session that is added was opened by a request that presented the secret of its client, or the refresh token of an unrevoked session of that client |
| AgentAuth.Backend.RevokeOauthClient | backend/app/services/agent_auth.py:762-791 | the loop revokes the client and all its sessions and no others |
| AgentAuth.Backend.IntrospectToken | backend/app/services/agent_auth.py:676-759 | the loop computes the introspection function |
| AgentAuth.IntrospectionAgrees | backend/app/services/agent_auth.py:676-759 | section 2.2 of RFC 7662: active if and only if one of the validations accepts the token, whatever the index answers; it fails to answer if and only if two unrevoked agent tokens share the prefix |
| AgentAuth.StepKeepsValid | backend/app/services/agent_auth.py:41-791 | every request keeps ids and secrets distinct and `expires_at` equal to the last activity plus the client's idle timeout |
| AgentAuth.RotationKeepsCount | backend/app/services/agent_auth.py:409-576 | over any run a client that is active at the end has one live session per successful exchange, refreshing adds none, and a revoked client has none for good |
| AgentAuth.RedeemedNeverAccepted | backend/app/services/agent_auth.py:484-576 | section 6 of RFC 6749: a redeemed refresh token, and the access token of its session, are refused after any further run |
| AgentAuth.SlidingSurvival | backend/app/services/agent_auth.py:614-653 | over any run that neither revokes the client nor redeems the session's refresh token, every use of the session is accepted if and only if each gap between its uses is below the idle timeout, whatever else is requested in between |
| AgentAuth.NeverAfterGap | backend/app/services/agent_auth.py:614-653 | after a gap of at least the timeout it is never accepted again over any run of further requests |
| SlidingWindow.Limiter.Allow | backend/agent_mcp/middleware.py:111-138 | the decision is whether fewer than the limit of all requests allowed so far are less than a minute ago, where only forced eviction makes it forget any; also what happens for limits below 1 |
| SlidingWindow.Limiter.Evict | backend/agent_mcp/middleware.py:117-126 | from at most 10,000 addresses none goes; from more, those go that made no request within two minutes, and then the oldest down to 10,000 |
| SlidingWindow.EvictOldest | backend/agent_mcp/middleware.py:122-126 | forced eviction keeps exactly the maximum, and drops nothing newer than what it keeps |
| SlidingWindow.WindowFiltered | backend/agent_mcp/middleware.py:133 | the filtered window has what the filtered log has |
| SlidingWindow.SpacingKept | backend/agent_mcp/middleware.py:133-138 | allowing only below the limit keeps any limit + 1 allowed requests a minute apart |
| SlidingWindow.EveryMinuteBounded | backend/agent_mcp/middleware.py:111-138 | so every half-open minute holds at most the limit |
| SlidingWindow.LimiterKeepsPromise | backend/agent_mcp/middleware.py:111-138 | the same for the limiter's own state, for every address and minute |
| AttemptCounters.RequestLimiter.Check | backend/agent_mcp/auth.py:246-267 | the counter and decision per token prefix, against all requests so far |
| AttemptCounters.CountIsStreak | backend/agent_mcp/auth.py:253-261 | the count is that of the current streak, refused requests included |
| AttemptCounters.RequestsPerMinute | backend/agent_mcp/auth.py:253-261 | at most the limit is allowed in any half-open minute |
| AttemptCounters.LockoutBound | backend/app/services/auth.py:239-307 | from any reachable state, with at most k attempts of a kind between check and end, there are at most 4 + k failures for each stretch in which the count does not start anew by a success of either kind or by the lockout time running out; an attempt may also end without a record |
| AttemptCounters.LockoutLasts | backend/app/services/auth.py:187-307 | after a failure an attempt passes its check, whatever else was attempted meanwhile, if and only if fewer than five failures are counted or a minute is over, five minutes for codes |
| AttemptCounters.SerialLockout | backend/app/routers/auth.py:94-175 | five for serial attempts, of passwords or of codes, in a stretch without a success of either |
| AttemptCounters.LockoutBoundIsTight | backend/app/services/auth.py:239-307 | from the start, for both kinds and every k, a run of one stretch reaches the bound |
| AttemptCounters.LoginsResetCodes | backend/app/routers/auth.py:114-175 | since a password login deletes both counters, n rounds of five failing codes and a login pass without a code being accepted, serially and in no time |
| ActivityLog.NewestEntriesKept | backend/app/services/agent_auth.py:833-834 | however pushes and trims interleave, the list is a newest-first prefix of all pushes with at least min(500, pushes) of them, and exactly that many once no recorder is in flight |
| History.ComputeChanges | backend/app/services/history.py:41-62 | the loop computes the fields that differ, with old and new value |
| History.UpdateExact | backend/app/routers/prompts.py:70-105 | an update goes through if and only if its fields are known, the prompt is there and the version is the current one or none; exactly the given fields change, the version goes one up, and the entry holds the row before and the fields that differ |
| History.CreateAndDeleteExact | backend/app/routers/prompts.py:23-124 | a creation stores the fields at version 1, a deletion takes the row away and records it, both if and only if they can |
| History.RollbackExact | backend/app/routers/history.py:106-221 | a rollback goes through if and only if the entry has a snapshot; the row becomes the snapshot one version further, or comes back at version 1, and the entry holds the row it replaces |
| History.RollbackRestores | backend/app/routers/history.py:147-221 | in every state that the trail fits, a rollback to an entry with a snapshot gives that row one version further, and rolling that back gives the replaced row; a deleted prompt comes back at version 1, and that cannot be rolled back |
| History.RestoredAfterRun | backend/app/routers/history.py:106-221 | whatever happens after an update or a deletion, rolling back to its entry brings back the row it changed |
| History.StepInv | backend/app/routers/history.py:106-221 | every request keeps the trail and the rows in step |
| History.TrailIsFaithful | backend/app/services/history.py:68-101 | over any run, every entry ever recorded tells the current row of every prompt whose last entry is not its creation, and that the row exists after a creation; every snapshot is the row that the entries before it tell |
| History.TableTells | backend/app/services/history.py:104-144 | of what pruning leaves, the newest entry of a prompt alone fits its row: in full after an update, after a rollback whose target is kept, and after a deletion; a prompt without an entry does not exist |
| History.NextSnapshot | backend/app/routers/prompts.py:87-102 | an update's snapshot patched with its changes and one version further is the next snapshot of the same prompt |
| History.LockExact | backend/app/routers/prompts.py:81-86 | over any run, deletions and rollbacks included, a request with the version read earlier is accepted if and only if the prompt is there and the entries since then lead back to that version: counted up by updates, set anew by rollbacks and creations |
| History.LockMissesExactly | backend/app/routers/history.py:170-207 | it is accepted although something was recorded in between if and only if the last rollback or creation since set the version so far back that the updates after it lead to the version read |
| History.LockDetectsWrites | backend/app/routers/prompts.py:81-86 | so while the prompt is neither deleted nor rolled back, it is accepted if and only if nobody wrote the prompt in between |
| History.LockMissesRollback | backend/app/routers/history.py:170-176 | a run in which a rollback makes the lock accept a stale edit |
| History.PruneHistory | backend/app/services/history.py:104-144 | the newest hundred of the entity stay, nothing newer goes than what stays, other entities are untouched |
| History.RecordRetains | backend/app/services/history.py:68-101 | over the whole log, an entry is missing only if a full hundred of its prompt are kept, none of them older |
| History.PromptHistory.RecordChange | backend/app/services/history.py:68-101 | the entry is appended to the trail under the next id, and the table is left pruned: the newest hundred of that prompt, everything of the others |
| History.PromptHistory.CreatePrompt | backend/app/routers/prompts.py:23-38 | a row at version 1 and a create entry without snapshot; nothing at all when the columns do not fit or the id is taken |
| History.PromptHistory.UpdatePrompt | backend/app/routers/prompts.py:70-105 | the fields set one by one give the updated row, one version further, and an entry with the row before and the changes; a missing prompt or a stale version changes nothing |
| History.PromptHistory.DeletePrompt | backend/app/routers/prompts.py:108-124 | the row goes, its last state stays as the entry's snapshot |
| History.PromptHistory.RollbackChange | backend/app/routers/history.py:106-221 | the snapshot set back field by field over the row, or the row recreated at version 1, with an entry that names the target; an entry that was pruned is not found and nothing changes |
| ToolHistory.ToolRow.ReplaceParams | backend/app/routers/history.py:159-168 | the collection cleared and refilled row by row holds the given parameters in order under fresh ids |
| ToolHistory.ToolRow.Update | backend/app/routers/tools.py:125-180 | a stale version changes nothing; otherwise the fields are set, given parameters replace all old ones, and the tool as it was is recorded with its parameters |
| ToolHistory.UpdateToolExact | backend/app/routers/tools.py:125-180 | over the store: exactly the given fields change, given parameters are stored in order as rows under ids not used before and otherwise the old ones stay, and the entry holds the tool as it was |
| ToolHistory.CreateToolExact | backend/app/routers/tools.py:33-66 | a new tool has the given fields at version 1 and the given parameters under fresh ids |
| ToolHistory.ToolRow.Rollback | backend/app/routers/history.py:154-189 | the snapshot's columns are set back, its parameters if it has any, and what is recorded has none |
| ToolHistory.ToolRestoredAfterRun | backend/app/routers/history.py:154-205 | whatever happens after an update or a deletion of a tool, rolling back to its entry brings back columns and parameters |
| ToolHistory.RollbackUndoneAfterRun | backend/app/routers/history.py:154-205 | rolling a rollback back, after any run, brings back the columns it replaced, and the parameters if and only if the tool has them already; a tool deleted since comes back without any |
| ExportImport.MaskSensitive | backend/app/services/crypto.py:145-159 | the loop masks the sensitive fields that have a value |
| ExportImport.EncryptSensitive | backend/app/services/crypto.py:87-113 | the loop encrypts the sensitive fields that are not null and not yet encrypted |
| ExportImport.MaskIsStable | backend/app/services/crypto.py:87-159 | mask, encrypt, mask is mask if and only if no sensitive field is empty other than null |
| ExportImport.SortedIsStable | backend/app/routers/export_import.py:227 | the sort of the parameters: in order, all of them, and ties as they were |
| ExportImport.Studio.ExportAll | backend/app/routers/export_import.py:151-280 | the loops compute the snapshot, which tells what the tables hold, or fail when a name does not fit the schema |
| ExportImport.ExportTells | backend/app/routers/export_import.py:151-280 | an export is made if and only if all names fit, and entry by entry it is the row: name, columns, version, tags or none, the name of the connection with the row's id, and the parameters in order, all of them, with ties kept; no password, and sensitive fields that have a value masked |
| ExportImport.Studio.ImportConns | backend/app/routers/export_import.py:361-404 | the rows added, the name index, and who was skipped or blocked |
| ExportImport.Studio.ImportTools | backend/app/routers/export_import.py:409-457 | the rows added, attached through the name index, and who was skipped or unattached |
| ExportImport.Studio.ImportResources | backend/app/routers/export_import.py:462-495 | the rows added, attached or without connection, and who was skipped or names a missing connection |
| ExportImport.Studio.ImportPrompts | backend/app/routers/export_import.py:500-521 | the rows added and who was skipped |
| ExportImport.Studio.ImportAll | backend/app/routers/export_import.py:289-588 | the whole import, with guard, unique constraints and dry run, all or nothing |
| ExportImport.ImportConserves | backend/app/routers/export_import.py:361-542 | created, skipped and errors add up to the payload, earlier rows stay, and the tables grow by what was created |
| ExportImport.ImportAttaches | backend/app/routers/export_import.py:409-495 | names and ids stay unique; every new tool or resource carries the fields of an entry of the payload, at version 1, and is attached to the connection whose name the entry gives, or to none |
| ExportImport.ImportCarries | backend/app/routers/export_import.py:361-521 | every new connection or prompt carries the fields of an entry of the payload: the password is its encrypted password, or the encrypted empty one, and the sensitive field is encrypted unless null or encrypted already |
| ExportImport.ImportFates | backend/app/routers/export_import.py:361-521 | each entry is skipped for a taken name, reported for a blocked host or an unknown connection, or there is a new row that carries it |
| ExportImport.ImportDoneExactly | backend/app/routers/export_import.py:289-588 | an import goes through if and only if names fit, the guard lets it pass, and no two entries to be created share a name |
| ExportImport.ImportTwice | backend/app/routers/export_import.py:361-521 | importing the same payload again creates nothing and changes nothing |
| ExportImport.DryRunForecasts | backend/app/routers/export_import.py:544-556 | a dry run changes nothing and reports what the import will do, except exactly when a new prompt name is repeated |
| ExportImport.RoundTrip | backend/app/routers/export_import.py:170-521 | export, import into an empty store and export again give the same snapshot up to versions, attachments by name included, if and only if names fit, guard and host check pass, no sensitive field is empty, and nothing refers to a missing connection; the snapshot tells what the tables hold |
| TwoFactor.HashRecoveryCodes | backend/app/services/totp.py:78-85 | one hash per code, in order |
| TwoFactor.VerifyAndConsume | backend/app/services/totp.py:88-100 | matches if and only if the code is there, and takes its first occurrence away |
| TwoFactor.ConsumedOnce | backend/app/services/totp.py:88-100 | exactly one occurrence of the code goes, and nothing else |
| TwoFactor.AdminService.Login | backend/app/routers/auth.py:94-126 | the right password, and nothing else, gives a session for a day, or a pending token for five minutes when 2FA is on |
| TwoFactor.AdminService.VerifyLogin | backend/app/routers/auth.py:129-175 | a session if and only if the pending token is signed, unexpired and the account's own, 2FA is on, and the recovery code is in the stored list or the TOTP code fits the stored secret; a recovery code is consumed, and a refusal changes nothing |
| TwoFactor.AdminService.Setup | backend/app/routers/auth.py:224-248 | stores a secret and a fresh batch, unless 2FA is on |
| TwoFactor.AdminService.VerifySetup | backend/app/routers/auth.py:251-275 | turns 2FA on if and only if it is off, a secret is stored and the code fits it, and changes nothing else |
| TwoFactor.AdminService.Disable | backend/app/routers/auth.py:278-303 | if and only if 2FA is on, the password is right and the code fits the stored secret: turns it off and forgets secret and codes |
| TwoFactor.AdminService.Regenerate | backend/app/routers/auth.py:306-330 | under the same condition, replaces the remaining codes by a fresh batch of eight |
| TwoFactor.StepInv | backend/app/routers/auth.py:94-330 | every request keeps: 2FA is on only with secret and codes, sessions are guarded, tokens have their fact in the history, and codes are conserved |
| TwoFactor.TwoFactorIsEnforced | backend/app/routers/auth.py:94-175 | in every reachable state 2FA is on only with secret and codes stored, every session opened under it directly follows an accepted code after a password at most five minutes old, every token that decodes as a session was opened so and is at most a day old, and every password and code in the history was presented and right |
| TwoFactor.EveryFactIsBacked | backend/app/routers/auth.py:94-175 | over any run, each accepted code is matched by a login whose TOTP code fits the stored secret, or whose recovery code was in the stored list and is taken out of it, and each verified password by one that presented it |
| TwoFactor.AdmittedExactly | backend/app/routers/auth.py:94-175 | a login changes anything if and only if the password is right, the second step if and only if its conditions hold; both sign one token, and no other request signs any |
| TwoFactor.RecoveryCodesConserved | backend/app/services/totp.py:88-108 | recovery logins since the last generation plus remaining codes are eight, and distinct codes are accepted at most once each |
| ToolNames.CandidatesDiffer | backend/app/routers/tools.py:211-220 | the names tried are pairwise different |
| ToolNames.Pigeonhole | backend/app/routers/tools.py:211-220 | one of any n + 1 names tried is free when n are taken |
| ToolNames.FreshCopyName | backend/app/routers/tools.py:211-220 | the loop stops within one more lookup than there are tools, at the first free name of `X_copy`, `X_copy_2`, `X_copy_3` and so on |
| Metrics.Round | backend/app/templates/server_main.py.j2:338 | rounding differs from the quotient by at most a half, and a tie goes to the even number |
| Metrics.ErrorsAttributedWithinHalf | backend/app/templates/server_main.py.j2:330-341 | for a day whose k tool counts sum to its calls, the errors attributed differ from the day's errors by at most k/2 |
| Metrics.ErrorsWithinCalls | backend/app/templates/server_main.py.j2:296-341 | when no past day has more errors than calls, no tool of the summary has, neither over 30 nor over 90 days |
| Metrics.EntitySummary | backend/app/templates/server_main.py.j2:296-341 | the nested loops compute the calls and errors of each window per tool, and the totals are the sums over the tools |
| Metrics.WindowsExact | backend/app/templates/server_main.py.j2:296-341 | the windows of each tool are today, today and the 29 days before, and today and the 89 days before, with the error shares of the past days |
| Metrics.WindowsNested | backend/app/templates/server_main.py.j2:296-341 | per tool, the windows of 1, 30 and 90 days are nested |
| Latency.ComputeP95 | backend/app/templates/server_main.py.j2:114-128 | the loop finds the first bucket up to which 95 percent lie, or the last |
| Latency.P95IsPercentile | backend/app/templates/server_main.py.j2:114-128 | for a histogram that counts the calls, that is the bucket of the 95th percentile of the calls themselves |

## Left out

- HTTP, the ORM, drivers, the executor, the deployer, the code generator and WebSocket streams: plumbing around the core.
- bcrypt, JWT signing and Fernet: hashes and signed tokens are free constructors, encryption is any function.
- SQL Server's own formatting in pymssql is taken to be Python's `%` operator; the servers' string literals, comments and `$$` quoting are not told apart by the compiler, and so not by the binders either, which know identifiers only.
- `_validate_sql`, `_infer_bq_type` and dialects outside the list: no law beyond their bodies.
- SqlLimit.LimitKeepsPlaceholders: asks that no character is both a word and a space character, which holds of the Unicode tables; so do the results of SqlPipeline and SqlMssql.
- AgentRuns.CacheCoherence: does not say that a live Redis entry has an unexpired row, because agent-mcp slides only the Redis TTL.
- AgentUses.UseRenews: of an entry whose idle timeout is not positive nothing is said; the database has no such client.
- AgentRuns.ValidationCompletes: nothing is said of a key that the scan yields after 25 others of its kind; the program does not look at it.
- Database commits that fail: in the token protocol a commit is one step that succeeds. The rows that a refresh or a sync reads are read in one step; reading the client later can only refuse more, since a revoked client stays so.
- AttemptCounters.LockoutBound: of the Redis counters; the in-memory fallback, and the loss of a counter key, are not modelled.
- The memory of the in-memory fallback limiter, which inserts keys without bound.
- History.Step: prompts only; tools with their parameters have runs of their own, with their restoration but without retention; rollback of connections and the server configuration goes through masked secrets and date strings, and unique names can make a rollback fail. JSON values are compared as a whole.
- The administrator's first setup, profile changes, and two verifications of recovery codes at the same time.
- Normalising a recovery code (strip, upper case) and computing a TOTP code: the normalised code is an input, and so is the set of pairs of a secret and a code that fit at the moment.
- ExportImport.Studio.ExportAll: of the response schema's checks only the patterns of names are modelled, not lengths, ranges and enumerations.
- ExportImport.Studio.ImportAll: without the server configuration, the batch history entries, the size limit and the ids of tools, resources and prompts; the other columns are carried as one value.
- Prompt-guard patterns and host resolution: predicates given to the import.
- ExportImport.RoundTrip: tables are sequences in row order, where the database promises no order.
- Metrics.EntitySummary: today's calls per tool are an input; the merging of the hourly and minute counters into them is not modelled.
- Today's error counts in the metrics, which the program leaves at zero; error rates; floating point, for which exact rationals stand.
