/** Properties of the prediction pipeline that relate its operations to one another. */
module Properties {
  import opened Wrappers
  import opened Values
  import opened Schema
  import opened Store
  import opened App

  /** Without a model, `predict` and `features` answer 500 "Modelo não carregado" and the
      table is untouched, while `healthcheck` reports the model as not loaded. */
  lemma ModelAbsent(req: Request, commitFault: Option<Exc>, table: seq<StoredRow>)
    ensures PredictOutcome(None, req, commitFault, table) == (ModelUnavailable(), table)
    ensures Features(None) == ModelUnavailable()
    ensures ModelUnavailable().body.erro == "Modelo não carregado"
    ensures !Healthcheck(None).body.modeloCarregado && Healthcheck(None).body.features == None
  {
  }

  /** The three model-dependent handlers agree on whether the model is present: the health
      report says loaded exactly when `features` succeeds and exactly when `predict` does
      not give the model-unavailable answer. */
  lemma ModelPresenceAgrees(modelo: Option<Classifier>, req: Request, commitFault: Option<Exc>,
                            table: seq<StoredRow>)
    ensures Healthcheck(modelo).body.modeloCarregado <==> Features(modelo).status == 200
    ensures Healthcheck(modelo).body.modeloCarregado <==>
              PredictOutcome(modelo, req, commitFault, table).0 != ModelUnavailable()
  {
  }

  /** A payload lacking a required key gets 400 listing all six required names and every
      received key, and nothing is stored. */
  lemma MissingColumnsRejected(m: Classifier, d: Payload, commitFault: Option<Exc>, table: seq<StoredRow>)
    requires IsDict(d)
    requires exists n :: n in Required && n !in d.entries
    ensures var out := PredictOutcome(Some(m), JsonBody(d), commitFault, table);
            && out.0.status == 400
            && out.0.body.colunasNecessarias == Required
            && (forall k :: k in out.0.body.colunasRecebidas <==> k in d.entries)
            && out.1 == table
  {
  }

  /** On a payload lacking a required key the answer does not depend on the model at all:
      inference is never reached, so two models with different feature orders and
      different inference give the same response and table, whatever the database does. */
  lemma MissingColumnsNeverInfers(m1: Classifier, m2: Classifier, d: Payload,
                                  f1: Option<Exc>, f2: Option<Exc>, table: seq<StoredRow>)
    requires !ContainsAll(d, Required)
    ensures PredictOutcome(Some(m1), JsonBody(d), f1, table) == PredictOutcome(Some(m2), JsonBody(d), f2, table)
  {
  }

  /** The vector sent to the model holds, at position i, the payload's value under the
      model's i-th feature name, and each of those names is a required one. */
  lemma VectorFollowsModelOrder(m: Classifier, req: Request)
    requires Prepare(Some(m), req).Labelled?
    ensures var s := Prepare(Some(m), req);
            && |s.vector| == |m.featureNamesIn|
            && forall i :: 0 <= i < |m.featureNamesIn| ==>
                 && m.featureNamesIn[i] in Required
                 && m.featureNamesIn[i] in s.payload.entries
                 && s.vector[i] == s.payload.entries[m.featureNamesIn[i]]
  {
    var s := Prepare(Some(m), req);
    var row := Frame(s.payload);
    FrameValues(s.payload);
    forall i | 0 <= i < |m.featureNamesIn|
      ensures m.featureNamesIn[i] in Required && s.vector[i] == s.payload.entries[m.featureNamesIn[i]]
    {
      assert m.featureNamesIn[i] in m.featureNamesIn;
    }
  }

  /** Two complete payloads that agree on the six required names reach the model with the
      same vector and get the same answer before persistence, whatever order their keys
      arrived in and whatever other keys they carry. */
  lemma VectorIgnoresKeyOrderAndExtraKeys(m: Classifier, d1: Payload, d2: Payload)
    requires ContainsAll(d1, Required) && ContainsAll(d2, Required)
    requires forall f :: Entry(d1, f) == Entry(d2, f)
    ensures Frame(d1) == Frame(d2)
    ensures var s1, s2 := Prepare(Some(m), JsonBody(d1)), Prepare(Some(m), JsonBody(d2));
            && s1.Labelled? == s2.Labelled?
            && (s1.Answered? ==> s1 == s2)
            && (s1.Labelled? ==> s1.vector == s2.vector && s1.resultado == s2.resultado)
  {
    SameFrame(d1, d2);
    assert Select(Frame(d1), m.featureNamesIn) == Select(Frame(d2), m.featureNamesIn);
  }

  /** Complete payloads that agree on the six required names build the same frame row. */
  lemma SameFrame(d1: Payload, d2: Payload)
    requires ContainsAll(d1, Required) && ContainsAll(d2, Required)
    requires forall f :: Entry(d1, f) == Entry(d2, f)
    ensures Frame(d1) == Frame(d2)
  {
    assert Entry(d1, Number) == Entry(d2, Number) && Entry(d1, Sex) == Entry(d2, Sex);
    assert Entry(d1, Hb) == Entry(d2, Hb) && Entry(d1, BluePixel) == Entry(d2, BluePixel);
    assert Entry(d1, GreenPixel) == Entry(d2, GreenPixel) && Entry(d1, RedPixel) == Entry(d2, RedPixel);
  }

  /** A model whose feature list names a column outside the six makes the selection raise
      KeyError: 500 with the exception's type, and nothing stored. */
  lemma UnknownFeatureFails(m: Classifier, d: Payload, commitFault: Option<Exc>, table: seq<StoredRow>)
    requires ContainsAll(d, Required)
    requires exists n :: n in m.featureNamesIn && n !in Required
    ensures var out := PredictOutcome(Some(m), JsonBody(d), commitFault, table);
            && out.0.status == 500
            && out.0.body == Raised(out.0.body.erro, "KeyError")
            && out.1 == table
  {
    var n :| n in m.featureNamesIn && n !in Required;
    assert n !in Frame(d);
  }

  /** When inference raises, the answer is 500 carrying that exception and nothing is
      stored, whether or not the database would have accepted the commit. */
  lemma InferenceFailureStoresNothing(m: Classifier, d: Payload, e: Exc, commitFault: Option<Exc>,
                                      table: seq<StoredRow>)
    requires ContainsAll(d, Required)
    requires Select(Frame(d), m.featureNamesIn).Success?
    requires m.predict(Select(Frame(d), m.featureNamesIn).value) == Failure(e)
    ensures PredictOutcome(Some(m), JsonBody(d), commitFault, table) == (ServerError(e), table)
  {
  }

  /** A refused commit is rolled back: the table is as before and the answer is 500
      without a prediction. */
  lemma CommitFailureLeavesTable(modelo: Option<Classifier>, req: Request, e: Exc, table: seq<StoredRow>)
    ensures var out := PredictOutcome(modelo, req, Some(e), table);
            && out.1 == table
            && out.0.status in {400, 500}
            && !out.0.body.Prediction?
  {
  }

  /** A successful request appends exactly one row with a fresh id, keeps every earlier row,
      keeps ids ascending, and stores each feature under its column name with the value the
      payload holds under the feature's display name, and the returned label as
      `resultado`. */
  lemma SuccessAppendsOneRow(modelo: Option<Classifier>, req: Request, table: seq<StoredRow>)
    requires IdsAscending(table)
    requires PredictOutcome(modelo, req, None, table).0.status == 200
    ensures var (resp, after) := PredictOutcome(modelo, req, None, table);
            var s := Prepare(modelo, req);
            && |after| == |table| + 1
            && after[..|table|] == table
            && IdsAscending(after)
            && (forall i :: 0 <= i < |table| ==> table[i].id < after[|table|].id)
            && (forall f :: Columns(after[|table|])[StorageName(f)] == s.payload.entries[DisplayName(f)])
            && after[|table|].record.resultado == resp.body.predicao
  {
    var (resp, after) := PredictOutcome(modelo, req, None, table);
    var s := Prepare(modelo, req);
    assert after == Insert(table, ToPredicao(s.payload, s.resultado));
    forall f
      ensures Columns(after[|table|])[StorageName(f)] == s.payload.entries[DisplayName(f)]
    {
      assert after[|table|].record == ToPredicao(s.payload, s.resultado);
    }
  }

  /** What a successful `predict` writes, `consultar` reads back: earlier entries are
      unchanged, and the new entry shows the payload's value under every display name, the
      returned prediction as `resultado`, and the new id spelled out as `data_criacao`. */
  lemma WriteThenRead(modelo: Option<Classifier>, req: Request, table: seq<StoredRow>)
    requires PredictOutcome(modelo, req, None, table).0.status == 200
    ensures var (resp, after) := PredictOutcome(modelo, req, None, table);
            var s := Prepare(modelo, req);
            var es := ConsultarOutcome(after, None).body.entries;
            && |es| == |table| + 1
            && es[..|table|] == ConsultarOutcome(table, None).body.entries
            && (forall f :: es[|table|][DisplayName(f)] == s.payload.entries[DisplayName(f)])
            && es[|table|]["resultado"] == JInt(resp.body.predicao)
            && es[|table|]["data_criacao"] == JStr(DecimalString(after[|table|].id))
  {
    var (resp, after) := PredictOutcome(modelo, req, None, table);
    var s := Prepare(modelo, req);
    var row := ToPredicao(s.payload, s.resultado);
    assert after == Insert(table, row);
    var added := after[|table|];
    assert after == table + [added];
    EntriesAppend(table, added);
  }

  /** The `consultar` output of a table with one more row is the old output followed by
      that row's entry. */
  lemma EntriesAppend(rows: seq<StoredRow>, r: StoredRow)
    ensures Entries(rows + [r]) == Entries(rows) + [ToEntry(r)]
  {
    var a, b := Entries(rows + [r]), Entries(rows) + [ToEntry(r)];
    forall i | 0 <= i < |a|
      ensures a[i] == b[i]
    {
      if i < |rows| {
        assert (rows + [r])[i] == rows[i];
      }
    }
  }

  /** `data_criacao` tells rows apart: in a table with ascending ids, no two entries of the
      `consultar` output carry the same `data_criacao`. */
  lemma DataCriacaoDistinct(table: seq<StoredRow>)
    requires IdsAscending(table)
    ensures var es := Entries(table);
            forall i, j :: 0 <= i < j < |table| ==> es[i]["data_criacao"] != es[j]["data_criacao"]
  {
    var es := Entries(table);
    forall i, j | 0 <= i < j < |table|
      ensures es[i]["data_criacao"] != es[j]["data_criacao"]
    {
      DecimalRoundTrip(table[i].id);
      DecimalRoundTrip(table[j].id);
      assert es[i]["data_criacao"] == JStr(DecimalString(table[i].id));
      assert es[j]["data_criacao"] == JStr(DecimalString(table[j].id));
    }
  }

  /** The payload the smoke-test client posts. */
  function SmokeTestPayload(): Payload
  {
    Payload(
      ["Number", "Sex", "Hb", "%Blue pixel", "%Green pixel", "%Red Pixel"],
      map[
        "Number" := JInt(4), "Sex" := JInt(0), "Hb" := JReal(15.3),
        "%Blue pixel" := JReal(25.9), "%Green pixel" := JReal(30.8), "%Red Pixel" := JReal(43.2)
      ])
  }

  /** A feature order unlike the payload's, for the scenarios below. */
  const TrainedOrder: seq<string> :=
    [DisplayName(Sex), DisplayName(Hb), DisplayName(RedPixel),
     DisplayName(GreenPixel), DisplayName(BluePixel), DisplayName(Number)]

  /** A complete payload holding the smoke test's six values, in whatever key order and
      with whatever other keys. */
  predicate SmokeTestValues(d: Payload)
  {
    && ContainsAll(d, Required)
    && Entry(d, Number) == JInt(4)
    && Entry(d, Sex) == JInt(0)
    && Entry(d, Hb) == JReal(15.3)
    && Entry(d, BluePixel) == JReal(25.9)
    && Entry(d, GreenPixel) == JReal(30.8)
    && Entry(d, RedPixel) == JReal(43.2)
  }

  /** The smoke-test payload holds the smoke test's values. */
  lemma SmokeTestEntries()
    ensures SmokeTestValues(SmokeTestPayload())
  {
    SmokeTestKeys();
    SmokeTestLookups();
  }

  /** The smoke-test payload's value under each display name. */
  lemma SmokeTestLookups()
    ensures var e := SmokeTestPayload().entries;
            && DisplayName(Number) in e && e[DisplayName(Number)] == JInt(4)
            && DisplayName(Sex) in e && e[DisplayName(Sex)] == JInt(0)
            && DisplayName(Hb) in e && e[DisplayName(Hb)] == JReal(15.3)
            && DisplayName(BluePixel) in e && e[DisplayName(BluePixel)] == JReal(25.9)
            && DisplayName(GreenPixel) in e && e[DisplayName(GreenPixel)] == JReal(30.8)
            && DisplayName(RedPixel) in e && e[DisplayName(RedPixel)] == JReal(43.2)
  {
  }

  /** The smoke-test payload carries every required key. */
  lemma SmokeTestKeys()
    ensures ContainsAll(SmokeTestPayload(), Required)
  {
  }

  /** Any complete payload reaches a model trained on `TrainedOrder` as the payload's
      values under that order's names. */
  lemma TrainedOrderVector(d: Payload)
    requires ContainsAll(d, Required)
    ensures Select(Frame(d), TrainedOrder) == Success([
              Entry(d, Sex), Entry(d, Hb), Entry(d, RedPixel),
              Entry(d, GreenPixel), Entry(d, BluePixel), Entry(d, Number)])
  {
    var row := Frame(d);
    assert forall n :: n in TrainedOrder ==> n in row;
    var v := Pick(row, TrainedOrder);
    assert Select(row, TrainedOrder) == Success(v);
    assert |v| == 6;
    assert v[0] == Entry(d, Sex);
    assert v[1] == Entry(d, Hb);
    assert v[2] == Entry(d, RedPixel);
    assert v[3] == Entry(d, GreenPixel);
    assert v[4] == Entry(d, BluePixel);
    assert v[5] == Entry(d, Number);
    SixElements(v);
  }

  /** A six-element sequence is the display of its elements. */
  lemma SixElements<T>(v: seq<T>)
    requires |v| == 6
    ensures v == [v[0], v[1], v[2], v[3], v[4], v[5]]
  {
  }

  /** A payload holding the smoke test's values reaches a model trained on
      `TrainedOrder` in that model's own order. */
  lemma SmokeTestVector(d: Payload)
    requires SmokeTestValues(d)
    ensures Select(Frame(d), TrainedOrder) ==
              Success([JInt(0), JReal(15.3), JReal(43.2), JReal(30.8), JReal(25.9), JInt(4)])
  {
    TrainedOrderVector(d);
  }

  /** The row the smoke test stores when the model labels its values `predicted`. */
  function SmokeTestRow(predicted: int): StoredRow
  {
    StoredRow(1, Predicao(JInt(4), JInt(0), JReal(15.3), JReal(25.9), JReal(30.8), JReal(43.2), predicted))
  }

  /** The smoke-test request on an empty table, with its keys in any order and any other
      keys besides, sent to any model whose feature names are among the six and which
      labels the vector it receives `predicted`: 200 with that label and one new row with id 1
      holding the payload's values and that label. */
  lemma SmokeTestScenario(m: Classifier, d: Payload, predicted: int)
    requires SmokeTestValues(d)
    requires forall n :: n in m.featureNamesIn ==> n in Required
    requires m.predict(Pick(Frame(d), m.featureNamesIn)) == Success(predicted)
    ensures PredictOutcome(Some(m), JsonBody(d), None, []) ==
              (Response(200, Prediction(predicted, m.featureNamesIn)), [SmokeTestRow(predicted)])
  {
    assert Prepare(Some(m), JsonBody(d)) == Labelled(d, Pick(Frame(d), m.featureNamesIn), predicted);
    SmokeTestRecord(d, predicted);
    assert Insert([], SmokeTestRow(predicted).record) == [SmokeTestRow(predicted)];
  }

  /** The record built from the smoke test's values and a label. */
  lemma SmokeTestRecord(d: Payload, predicted: int)
    requires SmokeTestValues(d)
    ensures ToPredicao(d, predicted) == SmokeTestRow(predicted).record
  {
  }

  /** After the smoke test, `consultar` shows one entry: Number 4, Hb 15.3, the label the
      model returned, and `data_criacao` "1". */
  lemma SmokeTestReadBack(predicted: int)
    ensures var es := ConsultarOutcome([SmokeTestRow(predicted)], None).body.entries;
            && |es| == 1 && es[0]["Number"] == JInt(4) && es[0]["Hb"] == JReal(15.3)
            && es[0]["resultado"] == JInt(predicted) && es[0]["data_criacao"] == JStr("1")
  {
    var after := [SmokeTestRow(predicted)];
    assert DecimalString(1) == "1";
    assert Entries(after)[0] == ToEntry(after[0]);
  }

  /** The smoke-test payload without `Hb`, sent to any model: 400, all six names
      required, the five sent ones received, nothing stored. */
  lemma MissingHbScenario(m: Classifier, table: seq<StoredRow>)
    ensures var d := Payload(
              ["Number", "Sex", "%Blue pixel", "%Green pixel", "%Red Pixel"],
              map[
                "Number" := JInt(4), "Sex" := JInt(0),
                "%Blue pixel" := JReal(25.9), "%Green pixel" := JReal(30.8), "%Red Pixel" := JReal(43.2)
              ]);
            PredictOutcome(Some(m), JsonBody(d), None, table) ==
                 (Response(400, MissingColumns("Colunas faltando", Required,
                    ["Number", "Sex", "%Blue pixel", "%Green pixel", "%Red Pixel"])), table)
  {
    var d: Payload := Payload(
      ["Number", "Sex", "%Blue pixel", "%Green pixel", "%Red Pixel"],
      map[
        "Number" := JInt(4), "Sex" := JInt(0),
        "%Blue pixel" := JReal(25.9), "%Green pixel" := JReal(30.8), "%Red Pixel" := JReal(43.2)
      ]);
    assert "Hb" in Required && "Hb" !in d.entries;
  }
}
