/** The document store as the program uses it: a `users` collection (in its
    natural order, with the unique index on `email` that the program creates
    at startup, utils/index.go) and a `counters` collection of named sequence
    values. Each driver call is a function of the collection's contents and of
    an injected transport `fault`: `Some(msg)` stands for a call that fails
    with error `msg` and changes nothing. */
module Mongo {
  import opened Common
  import opened Models

  /** The driver's `mongo.ErrNoDocuments`. */
  const ErrNoDocuments: string := "mongo: no documents in result"

  /** The sequence that numbers user documents. */
  const UserSequence: string := "users"

  /** The write error of an insert or update that would give two documents
      the same email: the driver's write-exception wrapper around the
      server's duplicate-key error. The database name that the server puts
      before the collection name is left out. */
  function DuplicateKey(email: string): (msg: string)
    ensures WriteErrors <= msg && |WriteErrors| + |DuplicateKeyCode| <= |msg|
    ensures msg[|WriteErrors|..|WriteErrors| + |DuplicateKeyCode|] == DuplicateKeyCode
  {
    var detail := " collection: users index: email_1 dup key: { email: \"" + email + "\" }]";
    var msg := WriteErrors + DuplicateKeyCode + detail;
    assert msg[..|WriteErrors|] == WriteErrors;
    assert msg[|WriteErrors|..|WriteErrors| + |DuplicateKeyCode|] == DuplicateKeyCode;
    msg
  }

  const WriteErrors: string := "write exception: write errors: ["
  const DuplicateKeyCode: string := "E11000 duplicate key error"

  datatype Store = Store(users: seq<User>, counters: map<string, int>)

  /** The current value of a sequence; a counter that does not exist yet
      counts as 0. */
  function SeqValue(counters: map<string, int>, name: string): int
  {
    if name in counters then counters[name] else 0
  }

  /** What the program keeps true of the store: ids and emails are unique,
      and every id was handed out by the user sequence. */
  ghost predicate Consistent(s: Store)
  {
    && UniqueIds(s.users)
    && UniqueEmails(s.users)
    && SeqValue(s.counters, UserSequence) >= 0
    && (forall i :: 0 <= i < |s.users| ==> 1 <= s.users[i].id <= SeqValue(s.counters, UserSequence))
  }

  ghost predicate UniqueIds(users: seq<User>)
  {
    forall i, j :: 0 <= i < j < |users| ==> users[i].id != users[j].id
  }

  /** What the unique index on `email` guarantees. */
  ghost predicate UniqueEmails(users: seq<User>)
  {
    forall i, j :: 0 <= i < j < |users| ==> users[i].email != users[j].email
  }

  /** Position of the first document whose `id` is `id`. */
  function IndexOfId(users: seq<User>, id: int): (r: Option<nat>)
    ensures r.Some? ==> r.value < |users| && users[r.value].id == id
    ensures r.Some? ==> forall j :: 0 <= j < r.value ==> users[j].id != id
    ensures r.None? ==> forall j :: 0 <= j < |users| ==> users[j].id != id
  {
    if users == [] then None
    else if users[0].id == id then Some(0)
    else match IndexOfId(users[1..], id)
      case None => None
      case Some(k) => Some(k + 1)
  }

  /** Position of the first document whose `email` is `email`. */
  function IndexOfEmail(users: seq<User>, email: string): (r: Option<nat>)
    ensures r.Some? ==> r.value < |users| && users[r.value].email == email
    ensures r.Some? ==> forall j :: 0 <= j < r.value ==> users[j].email != email
    ensures r.None? ==> forall j :: 0 <= j < |users| ==> users[j].email != email
  {
    if users == [] then None
    else if users[0].email == email then Some(0)
    else match IndexOfEmail(users[1..], email)
      case None => None
      case Some(k) => Some(k + 1)
  }

  /** Some document other than the one at `i` has this email. */
  predicate UsedElsewhere(users: seq<User>, email: string, i: int)
  {
    exists j :: 0 <= j < |users| && j != i && users[j].email == email
  }

  /** `FindOne({"id": id}).Decode(&user)`. */
  function FindOneById(users: seq<User>, id: int, fault: Option<string>): (r: Result<User>)
    ensures r.Ok? ==> r.value in users && r.value.id == id
    ensures fault.None? ==> (r.Ok? <==> exists j :: 0 <= j < |users| && users[j].id == id)
    ensures fault.None? && r.Err? ==> r.error == ErrNoDocuments
    ensures fault.Some? ==> r == Err(fault.value)
  {
    if fault.Some? then Err(fault.value)
    else match IndexOfId(users, id)
      case None => Err(ErrNoDocuments)
      case Some(i) => Ok(users[i])
  }

  /** `FindOne({"email": email}).Decode(&user)`. */
  function FindOneByEmail(users: seq<User>, email: string, fault: Option<string>): (r: Result<User>)
    ensures r.Ok? ==> r.value in users && r.value.email == email
    ensures fault.None? ==> (r.Ok? <==> exists j :: 0 <= j < |users| && users[j].email == email)
    ensures fault.None? && r.Err? ==> r.error == ErrNoDocuments
    ensures fault.Some? ==> r == Err(fault.value)
  {
    if fault.Some? then Err(fault.value)
    else match IndexOfEmail(users, email)
      case None => Err(ErrNoDocuments)
      case Some(i) => Ok(users[i])
  }

  /** `Find({})`: every document, in natural order. */
  function Find(users: seq<User>, fault: Option<string>): (r: Result<seq<User>>)
    ensures r.Ok? <==> fault.None?
    ensures r.Ok? ==> r.value == users
    ensures r.Err? ==> r.error == fault.value
  {
    if fault.Some? then Err(fault.value) else Ok(users)
  }

  /** `InsertOne(u)`: appended, unless the unique email index refuses it. */
  function InsertOne(users: seq<User>, u: User, fault: Option<string>): (r: Result<seq<User>>)
    ensures r.Ok? <==> fault.None? && forall j :: 0 <= j < |users| ==> users[j].email != u.email
    ensures r.Ok? ==> r.value == users + [u]
    ensures fault.None? && r.Err? ==> r.error == DuplicateKey(u.email)
  {
    if fault.Some? then Err(fault.value)
    else if IndexOfEmail(users, u.email).Some? then Err(DuplicateKey(u.email))
    else Ok(users + [u])
  }

  /** The `$set` of an `UpdateOne`: either every field of a whole document
      (the struct is marshalled field by field, none of them omitted), or
      only the name and the email. */
  datatype Change = ReplaceAll(doc: User) | SetNameEmail(name: string, email: string)

  function Applied(c: Change, u: User): User
  {
    match c
    case ReplaceAll(doc) => doc
    case SetNameEmail(name, email) => u.(name := name, email := email)
  }

  /** `UpdateOne({"id": id}, {"$set": ...})`: changes the first matching
      document; matching nothing is not an error; an email taken by another
      document is refused by the unique index. */
  function UpdateOne(users: seq<User>, id: int, c: Change, fault: Option<string>): (r: Result<seq<User>>)
    ensures r.Ok? ==> |r.value| == |users|
    ensures fault.Some? ==> r == Err(fault.value)
    ensures fault.None? && IndexOfId(users, id).None? ==> r == Ok(users)
    ensures fault.None? && IndexOfId(users, id).Some? ==>
      var i := IndexOfId(users, id).value;
      var d := Applied(c, users[i]);
      && (r.Ok? <==> !UsedElsewhere(users, d.email, i))
      && (r.Ok? ==> r.value[i] == d && forall j :: 0 <= j < |users| && j != i ==> r.value[j] == users[j])
      && (r.Err? ==> r.error == DuplicateKey(d.email))
  {
    if fault.Some? then Err(fault.value)
    else match IndexOfId(users, id)
      case None => Ok(users)
      case Some(i) =>
        var d := Applied(c, users[i]);
        if UsedElsewhere(users, d.email, i) then Err(DuplicateKey(d.email)) else Ok(users[i := d])
  }

  /** `DeleteOne({"id": id})`: removes the first matching document; matching
      nothing is not an error. */
  function DeleteOne(users: seq<User>, id: int, fault: Option<string>): (r: Result<seq<User>>)
    ensures r.Ok? <==> fault.None?
    ensures fault.Some? ==> r == Err(fault.value)
    ensures r.Ok? && IndexOfId(users, id).None? ==> r.value == users
    ensures r.Ok? && IndexOfId(users, id).Some? ==>
      var i := IndexOfId(users, id).value;
      |r.value| == |users| - 1 && r.value == users[..i] + users[i + 1..]
  {
    if fault.Some? then Err(fault.value)
    else match IndexOfId(users, id)
      case None => Ok(users)
      case Some(i) => Ok(users[..i] + users[i + 1..])
  }

  /** `FindOneAndUpdate({"_id": name}, {"$inc": {"seq": 1}})` with upsert and
      the document returned after the update: the new counters. */
  function FindOneAndIncrement(counters: map<string, int>, name: string, fault: Option<string>): (r: Result<map<string, int>>)
    ensures r.Ok? <==> fault.None?
    ensures r.Err? ==> r.error == fault.value
    ensures r.Ok? ==> name in r.value && r.value.Keys == counters.Keys + {name}
    ensures r.Ok? ==> SeqValue(r.value, name) == SeqValue(counters, name) + 1
    ensures r.Ok? ==> forall k :: k != name ==> SeqValue(r.value, k) == SeqValue(counters, k)
  {
    if fault.Some? then Err(fault.value) else Ok(counters[name := SeqValue(counters, name) + 1])
  }

  /** `CountDocuments({})`. */
  function CountDocuments(users: seq<User>, fault: Option<string>): (r: Result<int>)
    ensures fault.None? ==> r == Ok(|users|)
    ensures fault.Some? ==> r == Err(fault.value)
  {
    if fault.Some? then Err(fault.value) else Ok(|users|)
  }

  /** The database handle shared by both repositories. */
  class Database {
    var users: seq<User>
    var counters: map<string, int>

    /** A new, empty database whose email index is in place. */
    constructor ()
      ensures users == [] && counters == map[]
      ensures Valid()
    {
      users, counters := [], map[];
    }

    function State(): Store
      reads this
    {
      Store(users, counters)
    }

    ghost predicate Valid()
      reads this
    {
      Consistent(State())
    }
  }

  // ---------------------------------------------------------------------
  // Lemmas about the store

  /** With unique ids, the first document with an id is the only one. */
  lemma UniqueIdFound(users: seq<User>, id: int, k: nat)
    requires UniqueIds(users)
    requires k < |users| && users[k].id == id
    ensures IndexOfId(users, id) == Some(k)
    ensures FindOneById(users, id, None) == Ok(users[k])
  {
    assert IndexOfId(users, id).Some?;
  }

  /** With unique emails, a lookup by email finds the one holder of it. */
  lemma UniqueEmailFound(users: seq<User>, email: string, k: nat)
    requires UniqueEmails(users)
    requires k < |users| && users[k].email == email
    ensures FindOneByEmail(users, email, None) == Ok(users[k])
  {
    assert IndexOfEmail(users, email).Some?;
  }

  /** Advancing any counter keeps the store consistent: a skipped value is a
      gap, never a clash. */
  lemma IncrementKeepsConsistent(s: Store, name: string)
    requires Consistent(s)
    ensures Consistent(Store(s.users, FindOneAndIncrement(s.counters, name, None).value))
  {
    var c := FindOneAndIncrement(s.counters, name, None).value;
    assert SeqValue(s.counters, UserSequence) <= SeqValue(c, UserSequence);
  }

  /** Inserting a document numbered by a freshly advanced user sequence keeps
      ids unique: the new id is above every id already stored. */
  lemma InsertFreshKeepsConsistent(s: Store, counters: map<string, int>, u: User)
    requires Consistent(s)
    requires SeqValue(counters, UserSequence) == SeqValue(s.counters, UserSequence) + 1
    requires u.id == SeqValue(counters, UserSequence)
    requires InsertOne(s.users, u, None).Ok?
    ensures Consistent(Store(InsertOne(s.users, u, None).value, counters))
  {
    var users := s.users + [u];
    forall i, j | 0 <= i < j < |users|
      ensures users[i].id != users[j].id && users[i].email != users[j].email
    {
      if j == |s.users| {
        assert users[i] == s.users[i];
        assert s.users[i].id <= SeqValue(s.counters, UserSequence);
      }
    }
    forall i | 0 <= i < |users|
      ensures 1 <= users[i].id <= SeqValue(counters, UserSequence)
    {
      if i < |s.users| {
        assert users[i] == s.users[i];
      }
    }
  }

  /** An update that keeps the matched document's id keeps the store
      consistent; the email index guards the rest. */
  lemma UpdateKeepsConsistent(s: Store, id: int, c: Change)
    requires Consistent(s)
    requires c.ReplaceAll? ==> c.doc.id == id
    requires UpdateOne(s.users, id, c, None).Ok?
    ensures Consistent(Store(UpdateOne(s.users, id, c, None).value, s.counters))
  {
    var users' := UpdateOne(s.users, id, c, None).value;
    match IndexOfId(s.users, id)
    case None =>
    case Some(i) =>
      var d := Applied(c, s.users[i]);
      assert d.id == s.users[i].id;
      forall a, b | 0 <= a < b < |users'|
        ensures users'[a].id != users'[b].id && users'[a].email != users'[b].email
      {
        if a == i {
          assert users'[b] == s.users[b];
        } else if b == i {
          assert users'[a] == s.users[a];
        } else {
          assert users'[a] == s.users[a] && users'[b] == s.users[b];
        }
      }
      forall a | 0 <= a < |users'|
        ensures 1 <= users'[a].id <= SeqValue(s.counters, UserSequence)
      {
        if a != i {
          assert users'[a] == s.users[a];
        }
      }
  }

  /** Deleting keeps the store consistent, and with unique ids no document
      with the deleted id is left. */
  lemma DeleteKeepsConsistent(s: Store, id: int)
    requires Consistent(s)
    ensures Consistent(Store(DeleteOne(s.users, id, None).value, s.counters))
    ensures forall j :: 0 <= j < |DeleteOne(s.users, id, None).value| ==> DeleteOne(s.users, id, None).value[j].id != id
  {
    var users' := DeleteOne(s.users, id, None).value;
    match IndexOfId(s.users, id)
    case None =>
    case Some(i) =>
      assert forall j :: 0 <= j < |users'| ==> users'[j] == if j < i then s.users[j] else s.users[j + 1];
      forall j | 0 <= j < |users'|
        ensures users'[j].id != id
      {
        if j >= i {
          assert s.users[i].id != s.users[j + 1].id;
        }
      }
  }
}
