# Anemia prediction API: the prediction-request pipeline

This project models the core of a small Flask service that serves a trained anemia
classifier. The service loads the model once at start-up, and the model may be absent.
`POST /predict` checks that a posted payload carries the six required inputs: `Number`,
`Sex`, `Hb`, `%Blue pixel`, `%Green pixel` and `%Red Pixel`. It then projects the payload
into the model's own feature order, runs inference and casts the label to `int`. Finally it
records the payload and the label in the `predicoes` table within a database session. That
session is committed, or rolled back on failure, and always closed. `GET /consultar` lists
every stored row under the display names. `GET /healthcheck` and `GET /features` report on
the model handle.

Layout, one module per file:

- `wrappers.dfy` (`Wrappers`): `Option` and `Result`.
- `values.dfy` (`Values`): JSON values, which the pipeline passes through without looking
  inside them, and raised exceptions (type name and message).
- `schema.dfy` (`Schema`): the feature-name table. Each feature has a display name and a
  storage name, for example `%Blue pixel` and `blue_pixel`. This module also holds the
  required key list, the payload (a JSON object with its keys in arrival order), the
  required-key check, the data-frame row and the column selection.
- `store.dfy` (`Store`): the record layout, the table as a sequence of rows, and SQLite's
  id rule. It also holds the classes `Database` (the table plus counters of sessions opened
  and closed) and `Session` (add, commit, rollback, query, close).
- `app.dfy` (`App`): the model handle, the response shapes, each handler as a pure outcome
  function, and the class `Api`. `Api.Predict` and `Api.Consultar` run the handlers step by
  step against the database. Each is proved to produce exactly the response and table that
  the outcome function gives.
- `properties.dfy` (`Properties`): lemmas relating the operations, plus the smoke-test
  client's scenario worked through the model.

A payload is its key list in arrival order plus its entries. For a parsed JSON object the
two agree and no key repeats (`Schema.IsDict`). Only the claims about `colunas_recebidas`
depend on that, so only they require it.

Inference, database failures and unparseable bodies are inputs to the model. Inference is
`predict`, a field of the model handle that returns a label or an exception. A refused
commit and a failed read are `Option<Exc>` parameters. A body that is not a JSON object is
a request variant that carries the exception the handler raises on it: from `get_json()`
on a malformed body, or from the key check, `keys()` or indexing on a list, string or
number.

Response fields carry the handler's own names: `modelo_carregado`, `predicao`,
`features_utilizadas`, `colunas_necessarias`, `colunas_recebidas`, `erro` and `tipo_erro`.
`consultar` returns `resultado` and `data_criacao`, which is the id as a string. Feature
values reach the model and the table exactly as posted, because the handler coerces none.

## Model

| member | source | states |
|---|---|---|
| `Schema.DisplayName` | app.py:70 | every feature's display name is one of the six required keys |
| `Schema.ContainsAll` | app.py:71 | true exactly when every listed name is a key of the payload |
| `Schema.Frame` | app.py:79-85 | the frame row has exactly the six required names as keys, so other payload keys do not reach it; under each feature's display name it holds the payload's value for that feature |
| `Schema.FrameValues` | app.py:79-85 | under each of its names the frame row holds the payload's value under the same name |
| `Schema.Select` | app.py:86 | succeeds exactly when every name of the model's order is a frame column; then the i-th value is the frame's value under the i-th name; otherwise a KeyError |
| `Store.Columns` | app.py:35-44 | a row has exactly the eight table columns; each feature's value sits under its storage name (`blue_pixel` for `%Blue pixel`, …) |
| `Store.NextId` | app.py:37 | the id SQLite assigns is positive and larger than every id in the table; on an ascending table it is the last id plus one |
| `Store.Insert` | app.py:102-103 | a committed insert appends exactly one row holding the record, keeps every earlier row, gives it an id no earlier row has, and keeps ids ascending |
| `Store.InsertAll` | app.py:103 | a commit appends the pending records in order after the existing rows and keeps ids ascending |
| `Store.Database.constructor` | app.py:31-46 | the service starts with an empty table |
| `Store.Session.constructor` | app.py:92 | opening a session counts one more open session, leaves the table alone and stages nothing |
| `Store.Session.Add` | app.py:102 | `add` stages the record without touching the table |
| `Store.Session.Commit` | app.py:103 | a commit writes exactly the staged records, or raises and writes none of them |
| `Store.Session.Rollback` | app.py:111-112 | a rollback discards staged records; the table is untouched |
| `Store.Session.All` | app.py:141 | the query returns the whole table, or the exception the read raised |
| `Store.Session.Close` | app.py:117-119 | closing discards staged work and counts the session closed once |
| `App.Healthcheck` | app.py:50-58 | always 200; `modelo_carregado` is true exactly when the model is present; `features` is null exactly when it is absent, else the model's feature names |
| `App.Features` | app.py:121-135 | 500 "Modelo não carregado" exactly when the model is absent; otherwise 200 with the model's feature names and a description for each of the six required names |
| `App.ToPredicao` | app.py:93-101 | the record's column for each feature holds the payload's value under that feature's display name; `resultado` is the label |
| `App.Prepare` | app.py:61-89 | no model gives 500 "Modelo não carregado"; a payload missing a required key gives 400; a body that is not an object, a selection KeyError and an inference exception each give 500 with that exception; every early answer is 400 or 500 without a prediction; a label exists exactly when the key check passed, the selection in the model's order succeeded, and inference on that vector returned it |
| `App.PredictOutcome` | app.py:60-116 | 200 exactly when a label was produced and the commit succeeded; only a 200 carries `predicao`; an early answer is returned as it is with the table unchanged; any other answer leaves the table unchanged; a 200 appends exactly the record of the payload and the returned label; a refused commit answers 500 with that exception |
| `App.DecimalString` | app.py:151 | `str(id)` is a non-empty string of decimal digits |
| `App.DecimalRoundTrip` | app.py:151 | `str(id)` determines the id: parsing it gives the id back |
| `App.ToEntry` | app.py:142-152 | an entry has exactly the nine keys `id`, the six display names, `resultado` and `data_criacao`; it shows each feature under its display name, the id, `resultado`, and `data_criacao` as the id's decimal string; reading the entry back gives exactly the row |
| `App.ConsultarOutcome` | app.py:137-154 | a failed read answers 500 with its message; otherwise 200 with one entry per stored row, the i-th being exactly the `ToEntry` of the i-th row and reading back to that row |
| `App.Api.constructor` | app.py:22-28 | the service holds the model handle loaded at start-up, which may be absent |
| `App.Api.Predict` | app.py:60-119 | response and new table are those of `PredictOutcome`; ids stay ascending; a session is opened only when a label was produced, and every session opened is closed |
| `App.Api.Persist` | app.py:92-119 | once a label exists, exactly one session is opened and closed; if the commit succeeds, the answer is 200 with the label and exactly the record is appended; if the commit is refused, the answer is 500 with that exception and the table is left as it was |
| `App.Api.Consultar` | app.py:137-156 | response is `ConsultarOutcome` of the table; the table is unchanged; the one session opened is closed |
| `Properties.ModelAbsent` | app.py:62-63 | without a model, `predict` and `features` answer 500 "Modelo não carregado" and the table is untouched; `healthcheck` reports not loaded and null features |
| `Properties.ModelPresenceAgrees` | app.py:55-56 | `healthcheck` says loaded exactly when `features` succeeds and exactly when `predict` does not answer model-unavailable |
| `Properties.MissingColumnsRejected` | app.py:70-76 | a well-formed payload lacking a required key gets 400, `colunas_necessarias` is the full list, `colunas_recebidas` is every received key, and nothing is stored |
| `Properties.MissingColumnsNeverInfers` | app.py:70-89 | with a required key missing, the answer and table do not depend on the model or on the database: inference is never reached |
| `Properties.VectorFollowsModelOrder` | app.py:79-89 | the vector sent to the model holds at position i the payload's value under the model's i-th feature name, and every such name is a required one |
| `Properties.VectorIgnoresKeyOrderAndExtraKeys` | app.py:79-86 | two complete payloads that hold the same value for every feature get the same frame, the same vector and the same answer before persistence, whatever their key order and extra keys |
| `Properties.SameFrame` | app.py:79-85 | complete payloads holding the same value for every feature build the same frame row |
| `Properties.UnknownFeatureFails` | app.py:86 | a model order naming a column outside the six answers 500 with `tipo_erro` KeyError and stores nothing |
| `Properties.InferenceFailureStoresNothing` | app.py:89 | when inference raises, the answer is 500 with that exception and nothing is stored, whatever the database would do |
| `Properties.CommitFailureLeavesTable` | app.py:102-116 | a refused commit leaves the table as before and the answer is a 400/500 without `predicao` |
| `Properties.SuccessAppendsOneRow` | app.py:92-108 | a 200 appends exactly one row with a fresh id, keeps earlier rows and ascending ids, stores each feature under its storage name with the payload's value under its display name, and stores the returned `predicao` as `resultado` |
| `Properties.WriteThenRead` | app.py:142-152 | after a successful `predict`, `consultar` shows earlier entries unchanged, and one new entry with the payload's values under the display names, `resultado` equal to the returned prediction and `data_criacao` equal to `str(id)` |
| `Properties.EntriesAppend` | app.py:142-152 | listing a table with one more row gives the earlier listing followed by the new row's entry |
| `Properties.DataCriacaoDistinct` | app.py:151 | on a table with ascending ids, no two entries share a `data_criacao` |
| `Properties.TrainedOrderVector` | app.py:86 | a model trained on a different order of the six names receives any complete payload's values permuted into that order |
| `Properties.SmokeTestEntries` | testar_api.py:17-24 | the smoke-test payload is complete and holds Number 4, Sex 0, Hb 15.3, %Blue pixel 25.9, %Green pixel 30.8 and %Red Pixel 43.2 |
| `Properties.SmokeTestVector` | testar_api.py:17-24 | the smoke-test values reach a model trained on a different order of the six names in that model's order |
| `Properties.SmokeTestScenario` | testar_api.py:17-34 | for any model whose feature names are among the six and which labels the vector it receives L, the smoke-test request on an empty table, in any key order, answers 200 with L and stores one row with id 1 holding Number 4, Hb 15.3, … and L |
| `Properties.SmokeTestReadBack` | testar_api.py:44-47 | `consultar` afterwards shows that one entry: Number 4, Hb 15.3, `resultado` L and `data_criacao` "1" |
| `Properties.MissingHbScenario` | app.py:70-76 | for any model, the smoke-test payload without `Hb` answers 400 with all six names required and the five sent ones received, and stores nothing |

## Left out

- Flask routing, JSON (de)serialisation and the `jsonify` plumbing: responses are a
  datatype holding a status code and the body's fields.
- The `home` endpoint: its answer is static text.
- `joblib` loading and the random-forest internals. The model handle is an optional value
  holding the feature names and an uninterpreted `predict`. The `int(...)` cast of the label
  is folded into `predict`, so a label that cannot be cast counts as inference raising. The
  truth test `if not modelo` is taken to mean "absent".
- pandas: the one-row data frame is a map and the column selection is a sequence
  projection. The exact text of pandas' KeyError message is approximated: the model says
  only that the error is a KeyError naming the missing columns.
- SQLAlchemy and SQLite internals. This covers engine creation, `create_all`,
  `engine.dispose` at teardown, and the deletion of the database file at start-up. When
  that deletion succeeds the service starts on an empty table (`Database` constructor).
  When it fails with `PermissionError` the old file is kept, so the service can start on a
  table that already holds rows; `Api.Predict` and `Api.Consultar` accept any table with
  ascending ids, which covers that start. SQLite's column type affinity is not modelled:
  stored values come back exactly as they were given. For example, an integer posted as `Hb`
  would in fact come back as a real.
- Ids beyond SQLite's largest rowid: there the engine picks ids at random, and the model
  always uses the largest id plus one.
- `Session()` construction raising, and `add` raising: neither touches the database, and
  both are taken not to fail.
- The order of `consultar` output. The query has no `ORDER BY`, so SQL leaves the order
  open. The model takes it to be table order, which is insertion order and ascending id
  (SQLite's scan order over the rowid). `ConsultarOutcome`, `EntriesAppend`,
  `WriteThenRead`, `DataCriacaoDistinct` and `SmokeTestReadBack` state their results by
  position and rely on that assumption.
- Concurrency across worker threads: the model is sequential.
- `testar_api.py` is a network client. Only its payload and its sequence of calls are used,
  in the scenario lemmas.
