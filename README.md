# Agent wallboard roster — a Dafny model

The agent wallboard service keeps a roster of call-center agents in memory. The roster is one shared list of `{code, name, status, loginTime?}` records, and HTTP route handlers change it. This project models that roster:

- changing an agent's status, which checks the value against a fixed set of five: `Available`, `Active`, `Wrap Up`, `Not Ready`, `Offline`;
- logging in, an upsert keyed by agent code;
- logging out;
- counting and listing the agents;
- the dashboard statistics, which count agents per status and give each count as a rounded percentage.

Layout:

- `agents.dfy` (module `Agents`) holds the `Agent` record and the five status strings. It also holds `FindIndex`, the lookup by code that returns the first match as the service's `find` does. It defines the roster invariant `Valid`: codes are unique and every stored status is one of the five. Last, it holds the three seed records.
- `stats.dfy` (module `Stats`) holds the dashboard aggregation as pure functions. It proves that every percentage lies in 0..100. It also proves that the five bucket counts add up to the roster size when every status is one of the five. On the seed roster, the percentages add up to 99.
- `registry.dfy` (module `Registry`) gives each changing operation as a transition function on the sequence of records. The function returns the reply and the roster afterwards. The module then proves the lemmas:
  - the invariant is preserved;
  - a later lookup sees the change;
  - nothing else changes.
  The class `AgentRegistry` holds the shared roster as a field. Its methods look a record up and overwrite it where it stands. Each method is proved to equal the transition function and to keep `Valid()`.

A status is stored as text, as in the service, so "every status is one of the five" is a proved invariant and not a consequence of typing. The five statuses are matched exactly and case-sensitively. The clock is a parameter: `Login` receives the current time `now`. An absent `loginTime` is `None`.

Percentages are exact rational round-half-up: `round(100 * n / total)` is computed as `(200 * n + total) / (2 * total)` in integer division. `Stats.RoundedShare` states this as `(2p - 1) * total <= 200 * n < (2p + 1) * total`.

## Model

| member | source | states |
|---|---|---|
| `Agents.FindIndex` | server.js:66 | The lookup gives `None` exactly when no record has the code. Otherwise it gives the position of the first record with that code. |
| `Agents.Seed` | server.js:12-16 | The starting roster has three records with unique codes and valid statuses. |
| `Stats.CountStatus` | server.js:95-96 | The count for a status is at most the roster size. It is 0 exactly when no record has that status. It equals the size exactly when every record has it. |
| `Stats.Percent` | server.js:97 | The percentage is 0 for an empty roster. Otherwise it is the integer nearest to `100 * n / total`, with halves rounding up. It is at most 100 when `n <= total`. |
| `Stats.BucketOf` | server.js:95-97 | A bucket's count is the number of agents with that status, at most the roster size. Its percentage is that count's rounded share of the roster and at most 100. On an empty roster the bucket is 0 agents at 0%. |
| `Stats.DashboardOf` | server.js:93-119 | `total` is the roster size. Each bucket's count is the number of agents in that status. Each bucket's percentage is its own count's rounded share, independent of the other buckets, and at most 100. An empty roster gives total 0 and every bucket 0/0%. When every status is one of the five, the counts add up to `total`. |
| `Stats.BucketsSumToTotal` | server.js:94-103 | When every status is one of the five, the five bucket counts add up to `total`. |
| `Stats.PercentsInRange` | server.js:97-114 | Every bucket's percentage is at most 100. On an empty roster every count and every percentage is 0. |
| `Stats.SeedDashboard` | server.js:93-119 | On the seed roster the dashboard is total 3 with 1/33%, 1/33%, 0/0%, 1/33%, 0/0%. The percentages add up to 99, not 100. |
| `Registry.ApplySetStatus` | server.js:62-90 | An unknown code gives NotFound and leaves the roster as it was, whatever the status. A known code with a status outside the five gives InvalidStatus and also changes nothing. On success the reply is the previous and the new status. Only that record's status changes; its code, name and login time stay. Every other record and the length are unchanged. |
| `Registry.ApplyLogin` | server.js:122-141 | The reply always has the given code, status Available and login time `now`. An unknown code appends exactly that record, with the given name, at the end. A known code keeps its position, length and name, and leaves the other records unchanged. |
| `Registry.ApplyLogout` | server.js:144-156 | An unknown code gives NotFound and leaves the roster as it was. A known code's record becomes Offline with no login time and keeps its name. The length and the other records are unchanged. |
| `Registry.SetStatusPreservesValid` | server.js:71-83 | A status change keeps codes unique and every status in the five. |
| `Registry.LoginPreservesValid` | server.js:126-138 | Login keeps codes unique, because it appends only when the lookup fails. It keeps every status in the five. |
| `Registry.LogoutPreservesValid` | server.js:146-153 | Logout keeps codes unique and every status in the five. |
| `Registry.SetStatusThenLookup` | server.js:82-83 | After a successful status change, a lookup of the code finds the same position, now holding the new status. |
| `Registry.LoginThenLookup` | server.js:126-140 | After login, a lookup of the code finds exactly the record that was replied. The roster grew by one exactly when the code was new. |
| `Registry.LogoutThenLookup` | server.js:146-155 | After a successful logout, a lookup finds the record Offline and without a login time. |
| `Registry.SetOfflineKeepsLoginTime` | server.js:82-83 | Setting status Offline through the status route keeps the login time. Only logout clears it. |
| `Registry.DashboardAfterOperations` | server.js:94-103 | After any status change, login or logout on a valid roster, the dashboard's bucket counts still add up to the roster size. |
| `Registry.SeedScenarios` | server.js:66-80 | On the seed roster, `A099` gives NotFound, even with the bad status `Bananas`. `A001` with `Bananas` or with lower-case `available` gives InvalidStatus. `A002` to `Wrap Up` replies `Active` → `Wrap Up`. Logging in `A050` appends a new Available record. |
| `Registry.AgentRegistry.constructor` | server.js:12-16 | A new registry holds the seed roster and satisfies the invariant. |
| `Registry.AgentRegistry.Count` | server.js:52-58 | The count is the number of registered agents. |
| `Registry.AgentRegistry.List` | server.js:42-49 | The list is every record in insertion order, with its length. |
| `Registry.AgentRegistry.SetStatus` | server.js:62-90 | The method updates the record in place. Its reply and the new roster are exactly those of `ApplySetStatus`, and the invariant is kept. |
| `Registry.AgentRegistry.ComputeDashboardStats` | server.js:93-119 | The method reads the current roster. The result is `DashboardOf` of it, and its bucket counts add up to `total`. |
| `Registry.AgentRegistry.Login` | server.js:122-141 | The method appends or updates in place. The reply and the new roster are exactly those of `ApplyLogin`, and the invariant is kept. |
| `Registry.AgentRegistry.Logout` | server.js:144-156 | The method updates the record in place. The reply and the new roster are exactly those of `ApplyLogout`, and the invariant is kept. |

## Left out

- Express setup, CORS, JSON body parsing, `app.listen`, and the root and health routes (server.js:1-38, 159-161). These are framework plumbing and I/O. The health route's `agentCount` is the same number that `Count` returns.
- The transition log line (server.js:85-87) and every response `timestamp` are left out. They are side effects and clock reads. The login time is the parameter `now`.
- `Stats.Percent`: the service computes `Math.round((n / total) * 100)` in IEEE doubles. The model uses exact rational round-half-up. The two differ when the exact value is a half but the double product lands just below it. There `Math.round` rounds down and the model rounds up. For example, 23 of 40 gives 57 in the service and 58 in the model, and 29 of 200 gives 14 and 15. Floating point is not modelled.
- HTTP status codes (404, 400) and the JSON response shapes are left out. Replies are the `Result` and `Step` datatypes. The logout reply's fixed message text is not modelled.
- A missing `name` or `status` in the request body is not modelled separately. `name` is any string, possibly empty. A missing status is a string outside the five, so it gives InvalidStatus.
- Records are values in a sequence that the methods reassign, not shared objects. The service hands out a reference to the stored record in the login and logout replies. It serialises that reference at once, and no record is held across requests, so aliasing is not modelled.
- Concurrency is not modelled. The service handles one request at a time.
