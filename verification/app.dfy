/** The request pipeline: the model handle, the response shapes, the four handlers
    (`healthcheck`, `features`, `predict`, `consultar`) as pure outcome functions, and the
    `Api` class whose methods run `predict` and `consultar` step by step against the
    database. */
module App {
  import opened Wrappers
  import opened Values
  import opened Schema
  import opened Store

  /** The loaded classifier: its feature names in training order (`feature_names_in_`)
      and its inference, taken as given. `predict` yields the label already cast to an
      integer, or the exception inference raised. */
  datatype Classifier = Classifier(featureNamesIn: seq<string>, predict: seq<Json> -> Result<int, Exc>)

  /** A posted body: a JSON object, or anything else. A body that is not an object
      carries the exception the handler raises on it: from `get_json()` on a malformed
      body, or from the key check, `keys()` or indexing on a list, string or number. */
  datatype Request = JsonBody(payload: Payload) | NotAnObject(raised: Exc)

  /** The JSON body of a response, one variant per shape the handlers return. */
  datatype Body =
    | Health(status: string, modeloCarregado: bool, features: Option<seq<string>>, database: string)
    | FeatureInfo(featureNames: seq<string>, detalhes: map<string, string>)
    | Erro(erro: string)
    | MissingColumns(erro: string, colunasNecessarias: seq<string>, colunasRecebidas: seq<string>)
    | Raised(erro: string, tipoErro: string)
    | Prediction(predicao: int, featuresUtilizadas: seq<string>)
    | Rows(entries: seq<map<string, Json>>)

  datatype Response = Response(status: nat, body: Body)

  const ModelNotLoaded: string := "Modelo não carregado"

  function ModelUnavailable(): Response
  {
    Response(500, Erro(ModelNotLoaded))
  }

  /** The catch-all error response: the exception's message and type name. */
  function ServerError(e: Exc): Response
  {
    Response(500, Raised(e.message, e.typeName))
  }

  /** The answer to a payload that lacks a required key. */
  function MissingColumnsResponse(d: Payload): Response
  {
    Response(400, MissingColumns("Colunas faltando", Required, d.keys))
  }

  // ---------------------------------------------------------------- healthcheck, features

  /** `GET /healthcheck`: always 200; reports whether the model is loaded and, only when it
      is, its feature names. */
  function Healthcheck(modelo: Option<Classifier>): (r: Response)
    ensures r.status == 200 && r.body.Health?
    ensures r.body.modeloCarregado <==> modelo.Some?
    ensures r.body.features.None? <==> modelo.None?
    ensures modelo.Some? ==> r.body.features == Some(modelo.value.featureNamesIn)
  {
    Response(200, Health(
      "online",
      modelo.Some?,
      if modelo.Some? then Some(modelo.value.featureNamesIn) else None,
      "operacional"))
  }

  /** The fixed description of each input, keyed by display name. */
  const Details: map<string, string> := map[
    DisplayName(Number) := "Número de identificação",
    DisplayName(Sex) := "Gênero (0=Feminino, 1=Masculino)",
    DisplayName(Hb) := "Nível de hemoglobina",
    DisplayName(BluePixel) := "Percentual de pixels azuis",
    DisplayName(GreenPixel) := "Percentual de pixels verdes",
    DisplayName(RedPixel) := "Percentual de pixels vermelhos"
  ]

  /** `GET /features`: the model's feature names and a description of every required
      input, or the model-unavailable error. */
  function Features(modelo: Option<Classifier>): (r: Response)
    ensures modelo.None? <==> r == ModelUnavailable()
    ensures modelo.Some? ==> r.status == 200 && r.body.FeatureInfo?
    ensures modelo.Some? ==> r.body.featureNames == modelo.value.featureNamesIn
    ensures modelo.Some? ==> forall n :: n in r.body.detalhes <==> n in Required
  {
    if modelo.None? then ModelUnavailable()
    else Response(200, FeatureInfo(modelo.value.featureNamesIn, Details))
  }

  // ---------------------------------------------------------------- predict

  /** The record the handler adds for a complete payload and its label: each feature's
      column takes the payload value under the feature's display name. */
  function ToPredicao(d: Payload, resultado: int): (p: Predicao)
    requires ContainsAll(d, Required)
    ensures forall f :: DisplayName(f) in d.entries && Column(p, f) == d.entries[DisplayName(f)]
    ensures p.resultado == resultado
  {
    var p := Predicao(Entry(d, Number), Entry(d, Sex), Entry(d, Hb), Entry(d, BluePixel),
                      Entry(d, GreenPixel), Entry(d, RedPixel), resultado);
    assert forall f :: Column(p, f) == Entry(d, f) by {
      forall f ensures Column(p, f) == Entry(d, f) {
        RecordColumn(d, p, f);
      }
    }
    p
  }

  /** A record whose six columns hold a payload's six values holds, in the column of any
      feature, that feature's value. */
  lemma RecordColumn(d: Payload, p: Predicao, f: Feature)
    requires ContainsAll(d, Required)
    requires p.number == Entry(d, Number) && p.sex == Entry(d, Sex) && p.hb == Entry(d, Hb)
    requires p.bluePixel == Entry(d, BluePixel) && p.greenPixel == Entry(d, GreenPixel)
    requires p.redPixel == Entry(d, RedPixel)
    ensures Column(p, f) == Entry(d, f)
  {
  }

  /** Where a `predict` request stands once the steps before persistence are done: it has
      already been answered, or it holds a complete payload, the vector sent to the model
      and the label the model returned. */
  datatype Stage =
    | Answered(response: Response)
    | Labelled(payload: Payload, vector: seq<Json>, resultado: int)

  /** The steps of `POST /predict` before the session is opened: model presence, the
      required-key check, the projection into the model's column order and inference. */
  function Prepare(modelo: Option<Classifier>, req: Request): (s: Stage)
    ensures modelo.None? ==> s == Answered(ModelUnavailable())
    ensures modelo.Some? && req.JsonBody? && !ContainsAll(req.payload, Required) ==>
              s == Answered(MissingColumnsResponse(req.payload))
    ensures modelo.Some? && req.NotAnObject? ==> s == Answered(ServerError(req.raised))
    ensures modelo.Some? && req.JsonBody? && ContainsAll(req.payload, Required) ==>
              var sel := Select(Frame(req.payload), modelo.value.featureNamesIn);
              && (sel.Failure? ==> s == Answered(ServerError(sel.error)))
              && (sel.Success? && modelo.value.predict(sel.value).Failure? ==>
                    s == Answered(ServerError(modelo.value.predict(sel.value).error)))
              && (sel.Success? && modelo.value.predict(sel.value).Success? ==>
                    s == Labelled(req.payload, sel.value, modelo.value.predict(sel.value).value))
    ensures s.Answered? ==> s.response.status in {400, 500} && !s.response.body.Prediction?
    ensures s.Labelled? ==>
              && modelo.Some? && req.JsonBody? && s.payload == req.payload
              && ContainsAll(s.payload, Required)
              && Select(Frame(s.payload), modelo.value.featureNamesIn) == Success(s.vector)
              && modelo.value.predict(s.vector) == Success(s.resultado)
  {
    match modelo
    case None => Answered(ModelUnavailable())
    case Some(m) =>
      match req
      case NotAnObject(e) => Answered(ServerError(e))
      case JsonBody(dados) =>
        if !ContainsAll(dados, Required) then Answered(MissingColumnsResponse(dados))
        else
          match Select(Frame(dados), m.featureNamesIn)
          case Failure(e) => Answered(ServerError(e))
          case Success(df) =>
            match m.predict(df)
            case Failure(e) => Answered(ServerError(e))
            case Success(resultado) => Labelled(dados, df, resultado)
  }

  /** The response of `POST /predict` and the table after it, given the table before it
      and whether the database refuses the commit (`commitFault`). */
  function PredictOutcome(modelo: Option<Classifier>, req: Request, commitFault: Option<Exc>,
                          table: seq<StoredRow>): (out: (Response, seq<StoredRow>))
    ensures out.0.status == 200 <==> Prepare(modelo, req).Labelled? && commitFault.None?
    ensures out.0.body.Prediction? <==> out.0.status == 200
    ensures Prepare(modelo, req).Answered? ==> out == (Prepare(modelo, req).response, table)
    ensures out.0.status != 200 ==> out.1 == table
    ensures out.0.status == 200 ==>
              var s := Prepare(modelo, req);
              && out.0.body == Prediction(s.resultado, modelo.value.featureNamesIn)
              && out.1 == Insert(table, ToPredicao(s.payload, s.resultado))
    ensures Prepare(modelo, req).Labelled? && commitFault.Some? ==> out.0 == ServerError(commitFault.value)
  {
    match Prepare(modelo, req)
    case Answered(r) => (r, table)
    case Labelled(dados, _, resultado) =>
      if commitFault.None? then
        (Response(200, Prediction(resultado, modelo.value.featureNamesIn)),
         Insert(table, ToPredicao(dados, resultado)))
      else (ServerError(commitFault.value), table)
  }

  // ---------------------------------------------------------------- consultar

  /** `str(n)` for a natural number: its decimal digits, most significant first. */
  function DecimalString(n: nat): (s: string)
    ensures |s| >= 1
    ensures forall i :: 0 <= i < |s| ==> '0' <= s[i] <= '9'
    ensures n >= 10 ==> |s| >= 2
  {
    if n < 10 then [DigitChar(n)] else DecimalString(n / 10) + [DigitChar(n % 10)]
  }

  function DigitChar(d: nat): (c: char)
    requires d < 10
    ensures '0' <= c <= '9'
  {
    ('0' as int + d) as char
  }

  /** Reads a string of decimal digits back into the number it denotes. */
  function ParseDecimal(s: string): (r: Option<nat>)
  {
    if s == [] || !('0' <= s[|s| - 1] <= '9') then None
    else
      var d := s[|s| - 1] as int - '0' as int;
      if |s| == 1 then Some(d)
      else
        match ParseDecimal(s[..|s| - 1])
        case None => None
        case Some(p) => Some(p * 10 + d)
  }

  /** The decimal form of an id determines the id. */
  lemma {:induction false} DecimalRoundTrip(n: nat)
    ensures ParseDecimal(DecimalString(n)) == Some(n)
  {
    var s := DecimalString(n);
    if n >= 10 {
      var prefix := DecimalString(n / 10);
      assert s == prefix + [DigitChar(n % 10)];
      assert s[..|s| - 1] == prefix;
      DecimalRoundTrip(n / 10);
    }
  }

  /** One element of the `consultar` output: the row's features under their display
      names, its id, its label and `data_criacao`, the id's decimal form. */
  function ToEntry(r: StoredRow): (e: map<string, Json>)
    ensures forall f :: DisplayName(f) in e && e[DisplayName(f)] == Column(r.record, f)
    ensures "id" in e && e["id"] == JInt(r.id)
    ensures "resultado" in e && e["resultado"] == JInt(r.record.resultado)
    ensures "data_criacao" in e && e["data_criacao"] == JStr(DecimalString(r.id))
    ensures FromEntry(e) == Some(r)
    ensures e.Keys == {"id", "Number", "Sex", "Hb", "%Blue pixel", "%Green pixel", "%Red Pixel",
                       "resultado", "data_criacao"}
  {
    DecimalRoundTrip(r.id);
    map[
      "id" := JInt(r.id),
      "Number" := r.record.number,
      "Sex" := r.record.sex,
      "Hb" := r.record.hb,
      "%Blue pixel" := r.record.bluePixel,
      "%Green pixel" := r.record.greenPixel,
      "%Red Pixel" := r.record.redPixel,
      "resultado" := JInt(r.record.resultado),
      "data_criacao" := JStr(DecimalString(r.id))
    ]
  }

  /** Reads an element of the `consultar` output back into the row it shows, when it has
      that shape and its `data_criacao` spells its id. */
  function FromEntry(e: map<string, Json>): Option<StoredRow>
  {
    if && "id" in e && e["id"].JInt? && e["id"].i >= 0
       && "Number" in e && "Sex" in e && "Hb" in e
       && "%Blue pixel" in e && "%Green pixel" in e && "%Red Pixel" in e
       && "resultado" in e && e["resultado"].JInt?
       && "data_criacao" in e && e["data_criacao"].JStr?
       && ParseDecimal(e["data_criacao"].s) == Some(e["id"].i)
    then
      Some(StoredRow(e["id"].i, Predicao(
        e["Number"], e["Sex"], e["Hb"],
        e["%Blue pixel"], e["%Green pixel"], e["%Red Pixel"],
        e["resultado"].i)))
    else None
  }

  /** The `consultar` output for a list of rows: one entry per row, in the same order. */
  function Entries(rows: seq<StoredRow>): (es: seq<map<string, Json>>)
    ensures |es| == |rows|
    ensures forall i :: 0 <= i < |rows| ==> es[i] == ToEntry(rows[i])
  {
    seq(|rows|, i requires 0 <= i < |rows| => ToEntry(rows[i]))
  }

  /** The response of `GET /consultar` on a table, given whether the read raises. */
  function ConsultarOutcome(table: seq<StoredRow>, readFault: Option<Exc>): (r: Response)
    ensures readFault.Some? ==> r == Response(500, Erro(readFault.value.message))
    ensures readFault.None? ==> r.status == 200 && r.body.Rows? && |r.body.entries| == |table|
    ensures readFault.None? ==>
              forall i :: 0 <= i < |table| ==> FromEntry(r.body.entries[i]) == Some(table[i])
    ensures readFault.None? ==>
              forall i :: 0 <= i < |table| ==> r.body.entries[i] == ToEntry(table[i])
  {
    if readFault.Some? then Response(500, Erro(readFault.value.message))
    else Response(200, Rows(Entries(table)))
  }

  // ---------------------------------------------------------------- the service

  /** The running service: the model handle loaded at start-up, possibly absent, and the
      database. */
  class Api {
    const modelo: Option<Classifier>
    const db: Database

    constructor (modelo: Option<Classifier>, db: Database)
      ensures this.modelo == modelo && this.db == db
    {
      this.modelo := modelo;
      this.db := db;
    }

    /** `POST /predict`. A session is opened only once a label exists, and every session
        opened is closed before the handler returns. */
    method Predict(req: Request, commitFault: Option<Exc>) returns (resp: Response)
      requires db.Valid()
      modifies db
      ensures db.Valid()
      ensures (resp, db.table) == PredictOutcome(modelo, req, commitFault, old(db.table))
      ensures db.sessionsOpened == old(db.sessionsOpened) + (if Prepare(modelo, req).Labelled? then 1 else 0)
      ensures db.sessionsClosed - old(db.sessionsClosed) == db.sessionsOpened - old(db.sessionsOpened)
    {
      if modelo.None? {
        return ModelUnavailable();
      }
      var m := modelo.value;
      ghost var stage := Prepare(modelo, req);
      // try
      match req {
        case NotAnObject(e) =>
          resp := ServerError(e);
        case JsonBody(dados) =>
          if !ContainsAll(dados, Required) {
            resp := MissingColumnsResponse(dados);
          } else {
            var df := Select(Frame(dados), m.featureNamesIn);
            if df.Failure? {
              resp := ServerError(df.error);
            } else {
              var predicted := m.predict(df.value);
              if predicted.Failure? {
                resp := ServerError(predicted.error);
              } else {
                assert stage == Labelled(dados, df.value, predicted.value);
                resp := Persist(ToPredicao(dados, predicted.value), commitFault);
              }
            }
          }
      }
    }

    /** The persistence steps of `POST /predict` once a label exists: open a session, add
        the record built from the payload and the label, commit, roll back if the commit
        raises, and close the session. The handler's `finally` closes exactly the sessions
        opened here, since no session exists on any earlier path. */
    method Persist(row: Predicao, commitFault: Option<Exc>) returns (resp: Response)
      requires db.Valid() && modelo.Some?
      modifies db
      ensures db.Valid()
      ensures commitFault.None? ==>
                && resp == Response(200, Prediction(row.resultado, modelo.value.featureNamesIn))
                && db.table == Insert(old(db.table), row)
      ensures commitFault.Some? ==> resp == ServerError(commitFault.value) && db.table == old(db.table)
      ensures db.sessionsOpened == old(db.sessionsOpened) + 1
      ensures db.sessionsClosed == old(db.sessionsClosed) + 1
    {
      ghost var before := db.table;
      var sessao := new Session(db);
      // try
      sessao.Add(row);
      assert sessao.pending == [row];
      var raised := sessao.Commit(commitFault);
      assert sessao.isOpen && db.sessionsOpened == old(db.sessionsOpened) + 1;
      assert db.sessionsClosed == old(db.sessionsClosed);
      if raised.None? {
        assert db.table == InsertAll(before, [row]) == Insert(before, row);
        resp := Response(200, Prediction(row.resultado, modelo.value.featureNamesIn));
      } else {
        sessao.Rollback();
        resp := ServerError(raised.value);
      }
      assert sessao.isOpen && db.sessionsClosed == old(db.sessionsClosed);
      // finally
      sessao.Close();
    }

    /** `GET /consultar`: reads every row through a session it always closes; the table is
        left as it was. */
    method Consultar(readFault: Option<Exc>) returns (resp: Response)
      requires db.Valid()
      modifies db
      ensures db.Valid() && db.table == old(db.table)
      ensures db.sessionsOpened == old(db.sessionsOpened) + 1
      ensures db.sessionsClosed == old(db.sessionsClosed) + 1
      ensures resp == ConsultarOutcome(old(db.table), readFault)
    {
      var sessao := new Session(db);
      // try
      var predicoes := sessao.All(readFault);
      if predicoes.Success? {
        resp := Response(200, Rows(Entries(predicoes.value)));
      } else {
        resp := Response(500, Erro(predicoes.error.message));
      }
      // finally
      sessao.Close();
    }
  }
}
