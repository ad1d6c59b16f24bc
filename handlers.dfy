/**
 * The HTTP side of the service: the two form handlers of `Server` and the
 * `/` handler that resolves the caller's identity, normalises the path and
 * dispatches.  Writing the response, template execution and the static file
 * server are outside the model; an `Outcome` records which of them the
 * request reaches and with what record.
 */
module Handlers {
  import opened Wrappers
  import Hex
  import Session
  import Routing
  import opened Users

  const BadRequest: int := 400
  const InternalServerError: int := 500

  /** Template names the handlers execute by name. */
  const IndexTemplate: string := "index.html"
  const CounterTemplate: string := "counter"

  datatype Outcome =
    | Status(code: int)                      // a bare status code, empty body
    | Render(template: string, data: Data)   // a template executed on a record
    | ServeStatic(urlPath: string)           // the static file server, given the request's URL path

  /** What the model sees of a request: URL path, `id` cookie and `name` form value. */
  datatype Request = Request(path: string, idCookie: Option<string>, nameValue: string)

  datatype Response = Response(setCookie: Option<Session.Cookie>, outcome: Outcome)

  /** Rows are only ever created by a successful name change, so every row has a name. */
  ghost predicate NamesSet(users: Table) {
    forall id :: id in users ==> users[id].name != ""
  }

  /** The effect of the name handler on the table, and its outcome. */
  ghost predicate SetNameEffect(before: Table, after: Table, id: string, name: string, out: Outcome) {
    if name == "" then
      out == Status(BadRequest) && after == before
    else
      (out == Status(InternalServerError) && after == before)
      || (after == Upserted(before, id, name) && out == Render(IndexTemplate, after[id]))
  }

  /** The effect of the counter handler on the table, and its outcome. */
  ghost predicate IncreaseCountEffect(before: Table, after: Table, id: string, out: Outcome) {
    (out == Status(InternalServerError) && after == before)
    || (after == Incremented(before, id) && out == Render(CounterTemplate, Find(after, id)))
  }

  /** A page view only reads: it renders the caller's row, or the zero record. */
  ghost predicate PageEffect(before: Table, after: Table, id: string, template: string, out: Outcome) {
    after == before
    && (out == Status(InternalServerError) || out == Render(template, Find(before, id)))
  }

  /** A successful name change of a new identity creates the row (id, name, 0). */
  lemma SetNameCreates(before: Table, after: Table, id: string, name: string, out: Outcome)
    requires SetNameEffect(before, after, id, name, out) && out.Render?
    requires id !in before
    ensures out.data == Data(id, name, 0)
    ensures after == before[id := Data(id, name, 0)]
  {
  }

  /** A successful name change of a known identity keeps its total. */
  lemma SetNameKeepsTotal(before: Table, after: Table, id: string, name: string, out: Outcome)
    requires SetNameEffect(before, after, id, name, out) && out.Render?
    requires id in before
    ensures out.data == before[id].(name := name)
    ensures after.Keys == before.Keys
  {
  }

  /** Counting an identity with no row renders the zero record and creates nothing. */
  lemma IncreaseCountMissing(before: Table, after: Table, id: string, out: Outcome)
    requires IncreaseCountEffect(before, after, id, out)
    requires id !in before
    ensures after == before
    ensures out == Status(InternalServerError) || out == Render(CounterTemplate, Zero)
  {
  }

  /** With ids as keys, a successful name change renders the caller's own row. */
  lemma SetNameRendersOwnRow(before: Table, after: Table, id: string, name: string, out: Outcome)
    requires WellFormed(before)
    requires SetNameEffect(before, after, id, name, out) && out.Render?
    ensures out.data.id == id && out.data.name == name
  {
  }

  /** With ids as keys, a successful increment renders the caller's own row or the zero record. */
  lemma IncreaseCountRendersOwnRow(before: Table, after: Table, id: string, out: Outcome)
    requires WellFormed(before)
    requires IncreaseCountEffect(before, after, id, out) && out.Render?
    ensures out.data == Zero || out.data.id == id
  {
  }

  class Server {
    const templates: set<string>
    const db: Store

    ghost predicate Valid()
      reads this, db
    {
      db.Valid() && NamesSet(db.users)
    }

    constructor (templates: set<string>, db: Store)
      requires db.Valid() && NamesSet(db.users)
      ensures Valid()
      ensures this.templates == templates && this.db == db
    {
      this.templates := templates;
      this.db := db;
    }

    /** Sets the caller's display name; an empty name is a client error. */
    method NameHandler(id: string, name: string) returns (out: Outcome)
      requires Valid()
      modifies db
      ensures Valid()
      ensures SetNameEffect(old(db.users), db.users, id, name, out)
    {
      if name == "" {
        return Status(BadRequest);
      }
      var failed, rows := db.UpsertName(id, name);
      if failed {
        return Status(InternalServerError);
      }
      var data := ScanRows(rows);
      out := Render(IndexTemplate, data);
    }

    /** Adds one to the caller's total, if the caller has a row. */
    method IncreaseCount(id: string) returns (out: Outcome)
      requires Valid()
      modifies db
      ensures Valid()
      ensures IncreaseCountEffect(old(db.users), db.users, id, out)
    {
      var failed, rows := db.IncrementTotal(id);
      if failed {
        return Status(InternalServerError);
      }
      var data := ScanRows(rows);
      out := Render(CounterTemplate, data);
    }

    /** The `/` handler: every request of the service passes through it. */
    method Serve(req: Request, random: seq<Hex.byte>) returns (resp: Response)
      requires Valid()
      requires |req.path| > 0
      requires req.idCookie.None? ==> |random| == Session.TokenBytes
      modifies db
      ensures Valid()
      ensures resp.setCookie == Session.Resolve(req.idCookie, random).setCookie
      ensures var id := Session.Resolve(req.idCookie, random).id;
              match Routing.Dispatch(req.path, templates)
              case SetName => SetNameEffect(old(db.users), db.users, id, req.nameValue, resp.outcome)
              case IncreaseCount => IncreaseCountEffect(old(db.users), db.users, id, resp.outcome)
              case Page(t) => PageEffect(old(db.users), db.users, id, t, resp.outcome)
              case Static => db.users == old(db.users) && resp.outcome == ServeStatic(req.path)
    {
      var id: string;
      var setCookie: Option<Session.Cookie>;
      if req.idCookie.None? {
        var token := Session.GenerateToken(random);
        setCookie := Some(Session.NewCookie(token));
        id := token;
      } else {
        setCookie := None;
        id := req.idCookie.value;
      }

      var path := Routing.Normalize(req.path);
      var out: Outcome;
      if path == Routing.NamePath {
        out := NameHandler(id, req.nameValue);
      } else if path == Routing.IncreaseCountPath {
        out := IncreaseCount(id);
      } else if path !in templates {
        out := ServeStatic(req.path);
      } else {
        var failed, rows := db.SelectById(id);
        if failed {
          out := Status(InternalServerError);
        } else {
          var data := ScanRows(rows);
          out := Render(path, data);
        }
      }
      resp := Response(setCookie, out);
    }
  }
}
