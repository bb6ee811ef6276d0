# Fingerprint enrollment backend: save and template aggregation

This project models the two pieces of logic in `index.js` that hold state or
compute something:

- **Saving an enrollment** (`POST /api/save_enrollment`). The handler checks
  that `name` and `idNumber` are given. It fetches the captured templates and
  images from the Python capture agent. A count-based completeness gate needs
  at least 10 template keys and 13 image keys. The handler then runs one SQLite
  transaction over two tables:
  - `users_and_templates`: one identity with ten nullable template BLOB columns;
  - `fingerprint_images`: one row per user with thirteen nullable image BLOB columns.

  The transaction inserts the user, updates one template column per payload
  key, inserts the image row, updates one image column per key, and commits.
  Any failure rolls back. A UNIQUE violation answers 409; anything else
  answers 500, with the exceptions listed under "## Left out" where the
  handler's own ROLLBACK throws.
- **Listing combined templates** (`GET /api/get-all-templates`). For every
  user row, in table order, the non-NULL template columns are concatenated
  from right thumb to right little, then from left thumb to left little.
- **Small helpers**: the agent-error mapping `handlePythonAgentError`, and the
  presence checks of `save_enrollment` and `create_template`.

The two tables are modelled in memory. `Store.EnrollmentStore` is a class
whose fields are the rows of both tables plus their AUTOINCREMENT counters.
`SaveEnrollment` runs the transaction through `Store.Transaction`, which works
on a copy of the tables:
- COMMIT installs the copy;
- ROLLBACK drops it.

So atomicity is a postcondition: every reply other than 200 leaves all four
fields exactly as they were. The schema constraints are the store's invariant:
- `id_number` is unique;
- `user_id` is unique and references an existing user;
- ids ascend.

The method is proved to keep them. It also keeps the stronger fact that
users and image rows come in pairs.

Things outside the code are inputs to the model:
- the agent's answer to the fetch (`FetchOutcome`);
- the storage engine failing at a given statement (`fault`, counted from BEGIN);
- base64 text, given as the bytes it decodes to.

SQLite compares column names without regard to ASCII case, and the model does
the same (`Columns.ParseTemplateColumn`).

The completeness gate counts keys and does not check their names:
- A complete payload always passes (`Tables.CompletePayloadPassesGate`).
- Ten keys of which two spell the same column, such as `fmr_right_thumb` and
  `FMR_RIGHT_THUMB`, also pass. The row they commit then keeps a NULL template
  column (`Tables.RepeatedColumnLeavesSlotNull`).
- A payload that fails the gate answers 500.

## Model

| member | source | states |
|---|---|---|
| `Agent.HandleAgentError` | index.js:90-95 | The reply always has `success = false` and a truthy message. ECONNREFUSED gives the fixed "service not running" text. Otherwise the agent's own message is used when it is truthy, else the fixed default. |
| `Requests.CreateTemplate` | index.js:219-230 | Answers 400 exactly when the body is missing or `template_no`/`capture_type` is falsy. Otherwise answers 200 with the agent's data unchanged, or 500 with the mapped agent error. |
| `Requests.CreateTemplateRejectsBeforeAgent` | index.js:221-223 | An incomplete body gets the same 400 reply whatever the agent would answer, so the agent is never consulted. |
| `Requests.TemplateNumberZeroIsMissing` | index.js:221 | Under JavaScript truthiness, `template_no = 0` counts as missing. |
| `Columns.TemplateColumnRoundTrip` | index.js:42-51 | Each template column's name resolves back to that column. |
| `Columns.ImageColumnRoundTrip` | index.js:57-69 | Each image column's name resolves back to that column. |
| `Columns.ParseTemplateColumnExactly` | index.js:137 | A key names a template column if and only if it spells that column's name up to ASCII case. |
| `Columns.ParseImageColumnExactly` | index.js:145 | A key names an image column if and only if it spells that column's name up to ASCII case. |
| `Columns.UpperCaseKeyNamesColumn` | index.js:137 | `FMR_RIGHT_THUMB` names the `fmr_right_thumb` column. |
| `Columns.CanonicalOrderIsComplete` | index.js:185-188 | The aggregation's column list contains every finger. |
| `Tables.NextIdIsFresh` | index.js:38 | Under the schema, the next AUTOINCREMENT id is above every user id, and no image row refers to it. |
| `Tables.EnrollKeepsSchema` | index.js:37-71 | Appending a user with a fresh id and an unused `id_number`, plus its image row, keeps every constraint: ids ascend, `id_number` stays unique, each image row references a user, and there is at most one image row per user. Users and image rows stay paired. |
| `Tables.WrittenHolds` | index.js:135-139 | After the UPDATE loop, a key that no later key overrides has its bytes in the column it names. |
| `Tables.WrittenElsewhere` | index.js:135-139 | A column that no key names keeps its previous value, or stays NULL. |
| `Tables.WrittenKeys` | index.js:135-139 | Starting from an all-NULL row, exactly the columns the keys name become non-NULL. |
| `Tables.NamedSlotsBound` | index.js:125 | Keys name at most as many columns as there are keys, and fewer when two keys name the same column. |
| `Tables.CompletePayloadPassesGate` | index.js:125-127 | A payload whose keys name all 10 template columns and all 13 image columns passes the count gate. |
| `Tables.RepeatedColumnLeavesSlotNull` | index.js:125-139 | At most ten writable template keys, two of which name the same column, leave some template column NULL. |
| `Tables.UpdateTouchesOnlyNewUser` | index.js:137-138 | `UPDATE ... WHERE id = ?` on the new id changes only the new row. |
| `Tables.UpdateTouchesOnlyNewImageRow` | index.js:145-146 | `UPDATE ... WHERE user_id = ?` on the new id changes only the new image row. |
| `Store.WriteTemplates` | index.js:135-139 | The template loop succeeds if and only if every value is text, every key names a column, and no statement in its range fails. On success, only the new row changes, and it gets the written template columns. |
| `Store.WriteImages` | index.js:143-147 | The same as `Store.WriteTemplates`, for the image loop on the new image row. |
| `Store.Transaction` | index.js:129-155 | Commits if and only if the following all hold: the `id_number` is unused, every key applies, and no statement from BEGIN to COMMIT fails. A rollback is flagged as a duplicate exactly when the user INSERT hit the UNIQUE constraint. A commit appends one user with id `userSeq + 1` (above every existing id), holding the written templates, and one image row for that id. The new tables satisfy the schema. |
| `Store.EnrollmentStore.SaveEnrollment` | index.js:111-162 | Replies 400 exactly when a field is missing, and 500 when the gate or the fetch fails. Replies 200 exactly when the transaction commits, and 409 exactly when the `id_number` is taken. On 200 the new user, its image row and the id in the message are fixed. Every other reply leaves the store unchanged. Keeps the schema invariants and the pairing. |
| `Store.EnrollmentStore.constructor` | index.js:36-72 | A new database has both tables empty and both counters at zero. |
| `Aggregation.Aggregate` | index.js:184-199 | Returns one record per row, in table order. Each record carries the row's id, `id_number` and name, plus its combined template. |
| `Aggregation.GetAllTemplates` | index.js:164-208 | A failed query answers 500 with the fixed message and no data. Otherwise answers 200, and the data is exactly `Aggregate` of the rows: one record per row, in table order. An empty table gives an empty list. |
| `Aggregation.CombinedIsCanonicalConcatenation` | index.js:185-191 | The combined template is right thumb + index + middle + ring + little, then left thumb + ... + little, with each NULL column contributing nothing. |
| `Aggregation.ConcatIsPrefix` | index.js:190-191 | Filtering out NULLs and then concatenating gives the same bytes as concatenating every column with NULL read as empty. |
| `Aggregation.CombinedLength` | index.js:190-191 | The combined length is the sum of the lengths of the non-NULL columns. |
| `Aggregation.AllNullGivesEmptyTemplate` | index.js:178-191 | A user whose template columns are all NULL still gets a record, with an empty template. |
| `Aggregation.AggregateAppend` | index.js:184-199 | Enrolling one more user appends exactly its record and leaves the earlier records unchanged. |
| `Aggregation.CombinedLengthOfPayload` | index.js:135-191 | If no two template keys name the same column, the enrolled user's combined template is as long as all the template payloads together. |

`Scenario.EnrollAliceTwice` is a client of the store and the listing.
Enrolling ("Alice", "ID-001") answers 200 with id 1. Enrolling the same id
number again answers 409. The listing then holds one record whose combined
template is as long as the ten template payloads together.

## Left out

- HTTP plumbing: Express routing, CORS, body parsing, morgan logging, and the 404/500 fallback middleware (index.js:81-88, index.js:282-293).
- The pass-through endpoints `start_enrollment`, `init-device`, `match_templates`, `device-status`, `config` and `identify`. They forward the agent's data unchanged. Their error path is `Agent.HandleAgentError`, and `Requests.CreateTemplate` shows the forwarding pattern.
- The socket.io event relay (index.js:271-277): asynchronous network delivery.
- Database start-up: opening the file, `PRAGMA foreign_keys`, `CREATE TABLE`, and `process.exit` on failure. The store starts with both tables empty.
- The `enrollment_date` column: it is filled from the clock, and no modelled code reads it.
- Base64 decoding by Node's `Buffer`. A string value is represented by the bytes it decodes to. Any other value is modelled as making `Buffer.from` throw, although `Buffer.from` also accepts arrays.
- `Tables.Written`: payload keys are spliced into the SQL text. The model treats a key that is not, up to ASCII case, a template or image column name as an unknown-column error. In particular this covers the tables' other columns (`id`, `id_number`, `name`, `enrollment_date`, `user_id`) and keys that carry SQL fragments. SQLite would instead write those columns or run that SQL.
- `Store.EnrollmentStore.SaveEnrollment`: in some failure cases the handler's `catch` runs `ROLLBACK` (index.js:155) when no transaction is open, and that `ROLLBACK` throws. The model answers 500 with the fixed save-failure message and leaves the store unchanged. The cases are:
  - a failed agent fetch (index.js:121);
  - an agent body that is `null` or `undefined`, whose destructuring at index.js:122 throws;
  - a failure of `BEGIN TRANSACTION` itself (fault at statement 0);
  - an engine error after which SQLite has already rolled the transaction back on its own (SQLITE_FULL, SQLITE_IOERR, SQLITE_NOMEM, some SQLITE_BUSY). The model's `fault` stands only for errors that leave the transaction open.

  In the code, the handler's promise then rejects, and no handler for unhandled rejections is installed. With Express 4 on Node 15 or later, the rejection becomes an uncaught exception and the server process exits, taking the socket relay with it. With Express 5, the rejection reaches the fallback error handler (index.js:284-287), which answers 500 with its generic message. The Express version is not pinned in the modelled files.
- `Store.EnrollmentStore.SaveEnrollment`: strings are sequences of Unicode scalar values, so JavaScript strings that contain an unpaired surrogate are not represented. SQLite stores such text as UTF-8 with U+FFFD in place of each unpaired surrogate. Two distinct such `id_number`s can therefore collide on the UNIQUE index (index.js:39), and the save answers 409. A `name` or `id_number` containing one is also read back changed by `/api/get-all-templates`.
- `Store.EnrollmentStore.SaveEnrollment`: `name` and `idNumber` are modelled as absent or a string. Non-string JSON values, which SQLite would store after a text conversion, are not represented.
- The agent payload fields `templates_base64` and `images_base64` are absent or objects. A truthy non-object value, whose `Object.keys` are its indices, is not represented.
- Reply texts with interpolated values are structured messages (`Saved(name, id)`, `AlreadyRegistered(idNumber)`), not rendered strings.
- The aggregation's `instanceof Buffer` filter. Template columns in the model only ever hold bytes, as everything the save writes does, so only the NULL test remains.
- The aggregation's final base64 encoding of the combined template: records carry the bytes.
- Concurrency between overlapping requests on the shared database handle: the model runs one call at a time.
- Cascade delete: there is no delete operation in the code.
- Agent timeouts and unreachability during the fetch are not told apart: each is a failed fetch.
