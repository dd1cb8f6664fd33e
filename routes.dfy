/** The spreadsheet HTTP routes over an abstract document store: create a
    sheet owned by the caller, list the caller's sheets, and share a sheet
    with a registered user. The store is a map from document id to record
    and the user collection a map from email to user id. The functions give
    each route's outcome; the class `Store` performs the routes on its
    fields. */
module SpreadsheetRoutes {
  import opened Wrappers

  type DocId = string
  type UserId = string
  type Email = string

  /** The schema's `access` enumeration. */
  datatype Access = View | Edit

  /** One element of `sharedWith`. */
  datatype ShareEntry = ShareEntry(user: UserId, access: Access)

  /** A stored spreadsheet record: title, owner, share list, cell data (empty
      by default) and creation time. */
  datatype Sheet = Sheet(title: string, owner: UserId, sharedWith: seq<ShareEntry>,
                         data: map<string, string>, createdAt: int)

  /** What a route answers: a record, a list of records, or a status code
      with its message. */
  datatype Response =
    | SheetJson(id: DocId, sheet: Sheet)
    | ListJson(sheets: map<DocId, Sheet>)
    | Fail(status: nat, msg: string)

  const ServerError: Response := Fail(500, "Server Error")
  const SheetNotFound: Response := Fail(404, "Spreadsheet not found")
  const NotAuthorized: Response := Fail(401, "Not authorized")
  const UserNotFound: Response := Fail(404, "User not found")

  /** The store after a route, and the route's answer. */
  datatype Outcome = Outcome(store: map<DocId, Sheet>, response: Response)

  /** How the schema treats the `access` field of a pushed entry: absent means
      the default `view`; `view` and `edit` are accepted; any other value
      fails validation. */
  function ParseAccess(access: Option<string>): (r: Option<Access>)
    ensures r == Some(View) <==> access.None? || access == Some("view")
    ensures r == Some(Edit) <==> access == Some("edit")
  {
    match access
    case None => Some(View)
    case Some(a) => if a == "view" then Some(View) else if a == "edit" then Some(Edit) else None
  }

  /** `POST /`: saves a new record with the request's title, the caller as
      owner, an empty share list, empty data and the current time under the
      freshly generated id. A missing or empty title fails the schema's
      `required` check, and an id already taken fails the save; both answer
      500 and store nothing. */
  function CreateOutcome(store: map<DocId, Sheet>, caller: UserId, title: Option<string>,
                         newId: DocId, now: int): (r: Outcome)
    ensures title.None? || title == Some("") || newId in store ==> r == Outcome(store, ServerError)
    ensures title.Some? && title.value != "" && newId !in store ==>
      && r.store.Keys == store.Keys + {newId}
      && (forall id :: id in store ==> r.store[id] == store[id])
      && r.store[newId].owner == caller && r.store[newId].title == title.value
      && r.store[newId].sharedWith == [] && r.store[newId].data == map[]
      && r.store[newId].createdAt == now
      && r.response == SheetJson(newId, r.store[newId])
  {
    if title.None? || title.value == "" || newId in store then Outcome(store, ServerError)
    else
      var sheet := Sheet(title.value, caller, [], map[], now);
      Outcome(store[newId := sheet], SheetJson(newId, sheet))
  }

  /** `GET /`: exactly the records whose owner is the caller. */
  function ListByOwner(store: map<DocId, Sheet>, caller: UserId): (r: map<DocId, Sheet>)
    ensures forall id :: id in r <==> id in store && store[id].owner == caller
    ensures forall id :: id in r ==> r[id] == store[id]
  {
    map id | id in store && store[id].owner == caller :: store[id]
  }

  /** `POST /:id/share`, guard by guard: an unknown sheet answers 404, a
      caller who is not the owner 401, an email with no user 404, and an
      access value the schema rejects 500; each leaves the store as it was.
      Otherwise exactly one entry for the user is appended to the end of the
      sheet's `sharedWith`, even if one is there already, and nothing else
      in the store changes. */
  function ShareOutcome(store: map<DocId, Sheet>, users: map<Email, UserId>, caller: UserId,
                        id: DocId, email: Email, access: Option<string>): (r: Outcome)
    ensures id !in store ==> r == Outcome(store, SheetNotFound)
    ensures id in store && store[id].owner != caller ==> r == Outcome(store, NotAuthorized)
    ensures id in store && store[id].owner == caller && email !in users ==> r == Outcome(store, UserNotFound)
    ensures id in store && store[id].owner == caller && email in users && ParseAccess(access).None? ==>
      r == Outcome(store, ServerError)
    ensures id in store && store[id].owner == caller && email in users && ParseAccess(access).Some? ==>
      && r.store.Keys == store.Keys
      && (forall other :: other in store && other != id ==> r.store[other] == store[other])
      && r.store[id].sharedWith == store[id].sharedWith + [ShareEntry(users[email], ParseAccess(access).value)]
      && r.store[id].title == store[id].title && r.store[id].owner == store[id].owner
      && r.store[id].data == store[id].data && r.store[id].createdAt == store[id].createdAt
      && r.response == SheetJson(id, r.store[id])
  {
    if id !in store then Outcome(store, SheetNotFound)
    else if store[id].owner != caller then Outcome(store, NotAuthorized)
    else if email !in users then Outcome(store, UserNotFound)
    else match ParseAccess(access)
      case None => Outcome(store, ServerError)
      case Some(a) =>
        var sheet := store[id].(sharedWith := store[id].sharedWith + [ShareEntry(users[email], a)]);
        Outcome(store[id := sheet], SheetJson(id, sheet))
  }

  /** The store changes only when the share succeeds. */
  lemma ShareChangesStoreOnlyOnSuccess(store: map<DocId, Sheet>, users: map<Email, UserId>, caller: UserId,
                                       id: DocId, email: Email, access: Option<string>)
    ensures ShareOutcome(store, users, caller, id, email, access).response.SheetJson? <==>
      id in store && store[id].owner == caller && email in users && ParseAccess(access).Some?
    ensures !ShareOutcome(store, users, caller, id, email, access).response.SheetJson? ==>
      ShareOutcome(store, users, caller, id, email, access).store == store
  {
  }

  /** Ownership is checked before the user lookup: a caller who does not own
      the sheet gets the same answer whatever the email, the access value or
      the user collection. */
  lemma NonOwnerLearnsNothing(store: map<DocId, Sheet>, users1: map<Email, UserId>, users2: map<Email, UserId>,
                              caller: UserId, id: DocId, email1: Email, email2: Email,
                              access1: Option<string>, access2: Option<string>)
    requires id in store && store[id].owner != caller
    ensures ShareOutcome(store, users1, caller, id, email1, access1) ==
            ShareOutcome(store, users2, caller, id, email2, access2)
  {
  }

  /** Sharing twice with the same user appends two entries. */
  lemma ShareTwiceDuplicates(store: map<DocId, Sheet>, users: map<Email, UserId>, caller: UserId,
                             id: DocId, email: Email, access: Option<string>)
    requires id in store && store[id].owner == caller && email in users && ParseAccess(access).Some?
    ensures var once := ShareOutcome(store, users, caller, id, email, access).store;
            var twice := ShareOutcome(once, users, caller, id, email, access).store;
            var e := ShareEntry(users[email], ParseAccess(access).value);
            twice[id].sharedWith == store[id].sharedWith + [e, e]
  {
    var once := ShareOutcome(store, users, caller, id, email, access).store;
    var e := ShareEntry(users[email], ParseAccess(access).value);
    assert once[id].sharedWith + [e] == store[id].sharedWith + [e, e];
  }

  /** A created sheet is listed for its creator and for no one else, and the
      others' lists do not change. */
  lemma CreateThenList(store: map<DocId, Sheet>, caller: UserId, title: string, newId: DocId, now: int, other: UserId)
    requires title != "" && newId !in store && other != caller
    ensures var after := CreateOutcome(store, caller, Some(title), newId, now).store;
            && ListByOwner(after, caller) == ListByOwner(store, caller)[newId := after[newId]]
            && ListByOwner(after, other) == ListByOwner(store, other)
  {
    var after := CreateOutcome(store, caller, Some(title), newId, now).store;
    assert ListByOwner(after, caller).Keys == ListByOwner(store, caller).Keys + {newId};
    assert ListByOwner(after, other).Keys == ListByOwner(store, other).Keys;
  }

  /** Sharing never changes who owns what, so every user's list names the
      same sheets. */
  lemma ShareKeepsLists(store: map<DocId, Sheet>, users: map<Email, UserId>, caller: UserId,
                        id: DocId, email: Email, access: Option<string>, who: UserId)
    ensures forall k :: k in ListByOwner(ShareOutcome(store, users, caller, id, email, access).store, who) <==>
      k in ListByOwner(store, who)
  {
  }

  /** The document and user collections as the server holds them. */
  class Store {
    var docs: map<DocId, Sheet>
    var users: map<Email, UserId>

    constructor (users: map<Email, UserId>)
      ensures docs == map[] && this.users == users
    {
      docs := map[];
      this.users := users;
    }

    /** `POST /`: builds the record, then saves it. */
    method Create(caller: UserId, title: Option<string>, newId: DocId, now: int) returns (res: Response)
      modifies this`docs
      ensures Outcome(docs, res) == CreateOutcome(old(docs), caller, title, newId, now)
    {
      if title.None? || title.value == "" {
        return ServerError;
      }
      var sheet := Sheet(title.value, caller, [], map[], now);
      if newId in docs {
        return ServerError;
      }
      docs := docs[newId := sheet];
      res := SheetJson(newId, sheet);
    }

    /** `GET /` */
    method List(caller: UserId) returns (res: Response)
      ensures res.ListJson?
      ensures forall id :: id in res.sheets <==> id in docs && docs[id].owner == caller
      ensures forall id :: id in res.sheets ==> res.sheets[id] == docs[id]
    {
      res := ListJson(ListByOwner(docs, caller));
    }

    /** `POST /:id/share`: the guards in order, then the push onto
        `sharedWith` and the save. */
    method Share(caller: UserId, id: DocId, email: Email, access: Option<string>) returns (res: Response)
      modifies this`docs
      ensures Outcome(docs, res) == ShareOutcome(old(docs), users, caller, id, email, access)
    {
      if id !in docs {
        return SheetNotFound;
      }
      var sheet := docs[id];
      if sheet.owner != caller {
        return NotAuthorized;
      }
      if email !in users {
        return UserNotFound;
      }
      var user := users[email];
      var parsed := ParseAccess(access);
      if parsed.None? {
        return ServerError;
      }
      sheet := sheet.(sharedWith := sheet.sharedWith + [ShareEntry(user, parsed.value)]);
      docs := docs[id := sheet];
      res := SheetJson(id, sheet);
    }
  }
}
