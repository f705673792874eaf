/** The user registry of internal/userstore/userstore.go: records by id and by credential hash, and their file. */
module UserStore {
  import opened Basics

  datatype User = User(id: string, username: string, regions: seq<string>, status: string)

  datatype Record = Record(user: User, hash: string)

  datatype Error = NotFound | Conflict | BadToken | Disabled | RegionDenied | WriteFailed

  datatype Result = Ok(user: User) | Err(error: Error)

  datatype NewUser = NewUser(username: string, regions: seq<string>, status: string, credential: string)

  datatype Change = Change(regions: Option<seq<string>>, status: Option<string>, credential: Option<string>)

  /** The two maps. A credential entry names the record it belongs to. */
  datatype Table = Table(byID: map<string, Record>, byHash: map<string, string>)

  const ENABLED := "enabled"

  // ---- pure parts ----

  /** The keyed hash is a parameter; no token hashes to nothing but the empty one. */
  function HashToken(hmac: string -> string, token: string): string {
    if token == "" then "" else hmac(token)
  }

  ghost predicate IsHash(hmac: string -> string) {
    forall token :: hmac(token) != ""
  }

  function RegionAllowed(allowed: seq<string>, region: string): (ok: bool)
    ensures ok <==> "*" in allowed || region in allowed
  {
    allowed != [] && (allowed[0] == "*" || allowed[0] == region || RegionAllowed(allowed[1..], region))
  }

  /** What policy says of a user whose identity is settled. */
  function Verdict(u: User, region: string): (r: Result)
    ensures r.Ok? <==> u.status == "enabled" && ("*" in u.regions || region in u.regions)
    ensures r.Ok? ==> r.user == u
    ensures r.Err? ==> r.error == if u.status == "enabled" then RegionDenied else Disabled
  {
    if u.status != ENABLED then Err(Disabled)
    else if !RegionAllowed(u.regions, region) then Err(RegionDenied)
    else Ok(u)
  }

  function Indexing(byHash: map<string, string>, r: Record): map<string, string> {
    if r.hash != "" then byHash[r.hash := r.user.id] else byHash
  }

  function Put(t: Table, r: Record): Table {
    Table(t.byID[r.user.id := r], Indexing(t.byHash, r))
  }

  function NewRecord(hmac: string -> string, id: string, i: NewUser): Record {
    Record(User(id, i.username, i.regions, if i.status == "" then ENABLED else i.status), HashToken(hmac, i.credential))
  }

  predicate Taken(t: Table, username: string) {
    exists id :: id in t.byID && t.byID[id].user.username == username
  }

  function Created(hmac: string -> string, t: Table, id: string, i: NewUser): Table {
    if Taken(t, i.username) then t else Put(t, NewRecord(hmac, id, i))
  }

  function Changed(hmac: string -> string, r: Record, c: Change): Record {
    Record(r.user.(regions := if c.regions.Some? then c.regions.value else r.user.regions,
                   status := if c.status.Some? then c.status.value else r.user.status),
           if c.credential.Some? then HashToken(hmac, c.credential.value) else r.hash)
  }

  function Updated(hmac: string -> string, t: Table, id: string, c: Change): Table {
    if id !in t.byID then t
    else
      var r := Changed(hmac, t.byID[id], c);
      Table(t.byID[id := r], if c.credential.Some? then Indexing(t.byHash - {t.byID[id].hash}, r) else t.byHash)
  }

  function Deleted(t: Table, id: string): Table {
    if id !in t.byID then t else Table(t.byID - {id}, t.byHash - {t.byID[id].hash})
  }

  /** Token login through the credential map. */
  function Login(hmac: string -> string, t: Table, token: string, region: string): Result {
    var h := HashToken(hmac, token);
    if token == "" || h !in t.byHash || t.byHash[h] !in t.byID then Err(BadToken)
    else Verdict(t.byID[t.byHash[h]].user, region)
  }

  // ---- the store ----

  class Store {
    const hmac: string -> string
    const onDisk: bool
    var byID: map<string, Record>
    var byHash: map<string, string>
    var file: Option<seq<Record>>

    function State(): Table
      reads this
    {
      Table(byID, byHash)
    }

    /** Open the store on what its file holds. */
    constructor (hmac: string -> string, onDisk: bool, file: Option<seq<Record>>)
      ensures State() == Loaded(if onDisk && file.Some? then file.value else [])
      ensures this.hmac == hmac && this.onDisk == onDisk && this.file == file
    {
      this.hmac, this.onDisk, this.file := hmac, onDisk, file;
      byID, byHash := map[], map[];
      new;
      if onDisk && file.Some? {
        var recs := file.value;
        for i := 0 to |recs|
          invariant State() == Loaded(recs[..i])
          invariant this.hmac == hmac && this.onDisk == onDisk && this.file == file
        {
          var r := recs[i];
          byID := byID[r.user.id := r];
          if r.hash != "" {
            byHash := byHash[r.hash := r.user.id];
          }
          assert recs[..i + 1][..i] == recs[..i];
        }
        assert recs[..|recs|] == recs;
      }
    }

    /** Write every record out, in whatever order, in place of the old file. A failed write leaves the old one. */
    method Flush(works: bool) returns (ok: bool)
      modifies this`file
      ensures ok == (!onDisk || works)
      ensures file == old(file) || (file.Some? && Lists(byID, file.value))
      ensures onDisk && ok ==> file.Some? && Lists(byID, file.value)
    {
      if !onDisk {
        return true;
      }
      var recs, rest := [], byID.Keys;
      while rest != {}
        invariant rest <= byID.Keys
        invariant forall id :: id in byID && id !in rest ==> byID[id] in recs
        invariant forall r :: r in recs ==> exists id :: id in byID && byID[id] == r
        decreases rest
      {
        var id :| id in rest;
        recs := recs + [byID[id]];
        rest := rest - {id};
      }
      if works {
        file := Some(recs);
      }
      return works;
    }

    /** id is the random identifier drawn for the user. */
    method Create(id: string, i: NewUser, works: bool) returns (r: Result)
      modifies this
      ensures State() == Created(hmac, old(State()), id, i)
      ensures r == Err(Conflict) <==> exists k :: k in old(byID) && old(byID)[k].user.username == i.username
      ensures r != Err(Conflict) ==>
                var hash := if i.credential == "" then "" else hmac(i.credential);
                var status := if i.status == "" then "enabled" else i.status;
                && byID == old(byID)[id := Record(User(id, i.username, i.regions, status), hash)]
                && byHash == if hash == "" then old(byHash) else old(byHash)[hash := id]
      ensures Taken(old(State()), i.username) ==> r == Err(Conflict) && file == old(file)
      ensures !Taken(old(State()), i.username) ==>
                r == (if !onDisk || works then Ok(NewRecord(hmac, id, i).user) else Err(WriteFailed))
      ensures onDisk && r.Ok? ==> file.Some? && Lists(byID, file.value)
    {
      var rest := byID.Keys;
      while rest != {}
        invariant rest <= byID.Keys
        invariant forall k :: k in byID && k !in rest ==> byID[k].user.username != i.username
        decreases rest
      {
        var k :| k in rest;
        if byID[k].user.username == i.username {
          return Err(Conflict);
        }
        rest := rest - {k};
      }
      var rec := NewRecord(hmac, id, i);
      byID := byID[id := rec];
      if rec.hash != "" {
        byHash := byHash[rec.hash := id];
      }
      var ok := Flush(works);
      return if ok then Ok(rec.user) else Err(WriteFailed);
    }

    method Update(id: string, c: Change, works: bool) returns (r: Result)
      modifies this
      ensures State() == Updated(hmac, old(State()), id, c)
      ensures id in old(byID) ==>
                && id in byID && byID == old(byID)[id := byID[id]]
                && byID[id].user.id == old(byID)[id].user.id
                && byID[id].user.username == old(byID)[id].user.username
                && byID[id].user.regions == (if c.regions.Some? then c.regions.value else old(byID)[id].user.regions)
                && byID[id].user.status == (if c.status.Some? then c.status.value else old(byID)[id].user.status)
                && byID[id].hash == (if c.credential.None? then old(byID)[id].hash
                                     else if c.credential.value == "" then "" else hmac(c.credential.value))
      ensures id !in old(byID) ==> r == Err(NotFound) && file == old(file)
      ensures id in old(byID) ==> r == (if !onDisk || works then Ok(byID[id].user) else Err(WriteFailed))
      ensures onDisk && r.Ok? ==> file.Some? && Lists(byID, file.value)
    {
      if id !in byID {
        return Err(NotFound);
      }
      var rec := byID[id];
      if c.regions.Some? {
        rec := rec.(user := rec.user.(regions := c.regions.value));
      }
      if c.status.Some? {
        rec := rec.(user := rec.user.(status := c.status.value));
      }
      if c.credential.Some? {
        byHash := byHash - {rec.hash};
        rec := rec.(hash := HashToken(hmac, c.credential.value));
        if rec.hash != "" {
          byHash := byHash[rec.hash := rec.user.id];
        }
      }
      byID := byID[id := rec];
      var ok := Flush(works);
      return if ok then Ok(rec.user) else Err(WriteFailed);
    }

    method Delete(id: string, works: bool) returns (e: Option<Error>)
      modifies this
      ensures State() == Deleted(old(State()), id)
      ensures byID == old(byID) - {id}
      ensures e == if id !in old(byID) then Some(NotFound) else if !onDisk || works then None else Some(WriteFailed)
      ensures onDisk && e.None? ==> file.Some? && Lists(byID, file.value)
    {
      if id !in byID {
        return Some(NotFound);
      }
      var rec := byID[id];
      byID := byID - {id};
      byHash := byHash - {rec.hash};
      var ok := Flush(works);
      return if ok then None else Some(WriteFailed);
    }

    /** The verdict on some holder of the name; on the one holder, whatever order they come in, if names are unique. */
    method AuthorizeUser(username: string, region: string) returns (r: Result)
      ensures !Taken(State(), username) ==> r == Err(NotFound)
      ensures Taken(State(), username) ==>
                exists id :: id in byID && byID[id].user.username == username && r == Verdict(byID[id].user, region)
      ensures UniqueNames(State()) ==>
                forall id :: id in byID && byID[id].user.username == username ==> r == Verdict(byID[id].user, region)
    {
      var rest := byID.Keys;
      while rest != {}
        invariant rest <= byID.Keys
        invariant forall k :: k in byID && k !in rest ==> byID[k].user.username != username
        decreases rest
      {
        var k :| k in rest;
        if byID[k].user.username == username {
          return Verdict(byID[k].user, region);
        }
        rest := rest - {k};
      }
      return Err(NotFound);
    }
  }

  /** The file lists exactly the records of the table. */
  predicate Lists(byID: map<string, Record>, recs: seq<Record>) {
    && (forall id :: id in byID ==> byID[id] in recs)
    && (forall r :: r in recs ==> exists id :: id in byID && byID[id] == r)
  }

  function Loaded(recs: seq<Record>): Table {
    if recs == [] then Table(map[], map[]) else Put(Loaded(recs[..|recs| - 1]), recs[|recs| - 1])
  }

  // ---- invariants ----

  ghost predicate UniqueNames(t: Table) {
    forall i, j :: i in t.byID && j in t.byID && t.byID[i].user.username == t.byID[j].user.username ==> i == j
  }

  /** No entry of the credential map is wrong. */
  ghost predicate Sound(t: Table) {
    && (forall id :: id in t.byID ==> t.byID[id].user.id == id)
    && (forall h :: h in t.byHash ==> h != "" && t.byHash[h] in t.byID && t.byID[t.byHash[h]].hash == h)
  }

  /** And none is missing: the map is the index of the records by credential. */
  ghost predicate Indexed(t: Table) {
    && Sound(t)
    && (forall id :: id in t.byID && t.byID[id].hash != "" ==>
        t.byID[id].hash in t.byHash && t.byHash[t.byID[id].hash] == id)
  }

  /** Nobody but the exception holds the credential. */
  predicate Unheld(t: Table, h: string, except: string) {
    h == "" || forall id :: id in t.byID && id != except ==> t.byID[id].hash != h
  }

  datatype Op =
    | OpCreate(id: string, i: NewUser)
    | OpUpdate(id: string, c: Change)
    | OpDelete(id: string)

  function Step(hmac: string -> string, t: Table, op: Op): Table {
    match op
    case OpCreate(id, i) => Created(hmac, t, id, i)
    case OpUpdate(id, c) => Updated(hmac, t, id, c)
    case OpDelete(id) => Deleted(t, id)
  }

  /** A drawn identifier is new. */
  predicate Possible(t: Table, op: Op) {
    op.OpCreate? ==> op.id !in t.byID
  }

  /** The credential an operation brings in is not held by another record. */
  predicate NoClash(hmac: string -> string, t: Table, op: Op) {
    match op
    case OpCreate(id, i) => Taken(t, i.username) || Unheld(t, HashToken(hmac, i.credential), id)
    case OpUpdate(id, c) => id !in t.byID || c.credential.None? || Unheld(t, HashToken(hmac, c.credential.value), id)
    case OpDelete(_) => true
  }

  lemma SoundStep(hmac: string -> string, t: Table, op: Op)
    requires Sound(t) && Possible(t, op)
    ensures Sound(Step(hmac, t, op))
  {
  }

  lemma NamesStep(hmac: string -> string, t: Table, op: Op)
    requires UniqueNames(t) && Possible(t, op)
    ensures UniqueNames(Step(hmac, t, op))
  {
  }

  /** An operation keeps the index exact if and only if it brings in no credential that another record holds. */
  lemma IndexedStepIff(hmac: string -> string, t: Table, op: Op)
    requires Indexed(t) && Possible(t, op)
    ensures Indexed(Step(hmac, t, op)) <==> NoClash(hmac, t, op)
  {
    match op
    case OpCreate(id, i) => IndexedCreate(hmac, t, id, i);
    case OpUpdate(id, c) => IndexedUpdate(hmac, t, id, c);
    case OpDelete(id) => IndexedDelete(t, id);
  }

  lemma IndexedCreate(hmac: string -> string, t: Table, id: string, i: NewUser)
    requires Indexed(t) && id !in t.byID
    ensures Indexed(Created(hmac, t, id, i)) <==> NoClash(hmac, t, OpCreate(id, i))
  {
    var u, h := Created(hmac, t, id, i), HashToken(hmac, i.credential);
    if !NoClash(hmac, t, OpCreate(id, i)) {
      var k :| k in t.byID && k != id && t.byID[k].hash == h;
      assert u.byID[k].hash == h && u.byHash[h] == id;
    }
  }

  lemma IndexedUpdate(hmac: string -> string, t: Table, id: string, c: Change)
    requires Indexed(t)
    ensures Indexed(Updated(hmac, t, id, c)) <==> NoClash(hmac, t, OpUpdate(id, c))
  {
    var u := Updated(hmac, t, id, c);
    if !NoClash(hmac, t, OpUpdate(id, c)) {
      var h := HashToken(hmac, c.credential.value);
      var k :| k in t.byID && k != id && t.byID[k].hash == h;
      assert u.byID[k].hash == h && u.byHash[h] == id;
    }
  }

  lemma IndexedDelete(t: Table, id: string)
    requires Indexed(t)
    ensures Indexed(Deleted(t, id))
  {
  }

  predicate IsRun(hmac: string -> string, t: Table, ops: seq<Op>)
    decreases |ops|
  {
    ops == [] || (Possible(t, ops[0]) && IsRun(hmac, Step(hmac, t, ops[0]), ops[1..]))
  }

  function Exec(hmac: string -> string, t: Table, ops: seq<Op>): Table
    decreases |ops|
  {
    if ops == [] then t else Exec(hmac, Step(hmac, t, ops[0]), ops[1..])
  }

  /** No operation of the run brings in a credential that another record holds. */
  predicate NeverClashes(hmac: string -> string, t: Table, ops: seq<Op>)
    decreases |ops|
  {
    ops == [] || (NoClash(hmac, t, ops[0]) && NeverClashes(hmac, Step(hmac, t, ops[0]), ops[1..]))
  }

  /** The index is exact at every point of the run. */
  ghost predicate AlwaysIndexed(hmac: string -> string, t: Table, ops: seq<Op>)
    decreases |ops|
  {
    Indexed(t) && (ops != [] ==> AlwaysIndexed(hmac, Step(hmac, t, ops[0]), ops[1..]))
  }

  lemma {:induction false} AlwaysIndexedIffNoClash(hmac: string -> string, t: Table, ops: seq<Op>)
    requires Indexed(t) && IsRun(hmac, t, ops)
    ensures AlwaysIndexed(hmac, t, ops) <==> NeverClashes(hmac, t, ops)
    decreases |ops|
  {
    if ops != [] {
      IndexedStepIff(hmac, t, ops[0]);
      if NoClash(hmac, t, ops[0]) {
        AlwaysIndexedIffNoClash(hmac, Step(hmac, t, ops[0]), ops[1..]);
      } else {
        NotIndexedNow(hmac, Step(hmac, t, ops[0]), ops[1..]);
      }
    }
  }

  lemma NotIndexedNow(hmac: string -> string, t: Table, ops: seq<Op>)
    requires !Indexed(t)
    ensures !AlwaysIndexed(hmac, t, ops)
  {
  }

  /** Clash or not, no run ever makes an entry wrong, and usernames stay unique. */
  lemma {:induction false} AlwaysSound(hmac: string -> string, t: Table, ops: seq<Op>)
    requires Sound(t) && UniqueNames(t) && IsRun(hmac, t, ops)
    ensures Sound(Exec(hmac, t, ops)) && UniqueNames(Exec(hmac, t, ops))
    decreases |ops|
  {
    if ops != [] {
      SoundStep(hmac, t, ops[0]);
      NamesStep(hmac, t, ops[0]);
      AlwaysSound(hmac, Step(hmac, t, ops[0]), ops[1..]);
    }
  }

  // ---- login ----

  /** The records whose credential the token is. */
  function Holders(hmac: string -> string, t: Table, token: string): set<string> {
    set id | id in t.byID && token != "" && t.byID[id].hash == hmac(token)
  }

  /** Token login is a scan of all records: nobody's token is bad, and a holder gets its own verdict. */
  lemma LoginIsScan(hmac: string -> string, t: Table, token: string, region: string)
    requires Indexed(t) && IsHash(hmac)
    ensures Holders(hmac, t, token) == {} ==> Login(hmac, t, token, region) == Err(BadToken)
    ensures forall id :: id in Holders(hmac, t, token) ==>
                           Login(hmac, t, token, region) == Verdict(t.byID[id].user, region)
                               && Holders(hmac, t, token) == {id}
  {
    var h := HashToken(hmac, token);
    if token != "" && h in t.byHash {
      assert t.byHash[h] in Holders(hmac, t, token);
    }
    forall id | id in Holders(hmac, t, token) ensures Holders(hmac, t, token) == {id} {
      assert t.byID[id].hash != "";
    }
  }

  /** The operation makes some record hold the credential. */
  predicate BringsIn(hmac: string -> string, op: Op, h: string) {
    || (op.OpCreate? && HashToken(hmac, op.i.credential) == h)
    || (op.OpUpdate? && op.c.credential.Some? && HashToken(hmac, op.c.credential.value) == h)
  }

  /** A token nobody holds is refused for as long as no operation brings its credential in. */
  lemma {:induction false} UnheldTokenStaysOut(hmac: string -> string, t: Table, ops: seq<Op>, was: string,
                                               region: string)
    requires Sound(t) && IsRun(hmac, t, ops) && was != "" && Holders(hmac, t, was) == {}
    requires forall k :: 0 <= k < |ops| ==> !BringsIn(hmac, ops[k], hmac(was))
    ensures Holders(hmac, Exec(hmac, t, ops), was) == {}
            && Login(hmac, Exec(hmac, t, ops), was, region) == Err(BadToken)
    decreases |ops|
  {
    if ops == [] {
      forall id | id in t.byID ensures t.byID[id].hash != hmac(was) {
        assert id !in Holders(hmac, t, was);
      }
    } else {
      var u := Step(hmac, t, ops[0]);
      SoundStep(hmac, t, ops[0]);
      forall id | id in u.byID ensures id !in Holders(hmac, u, was) {
        assert id in t.byID ==> id !in Holders(hmac, t, was);
      }
      UnheldTokenStaysOut(hmac, u, ops[1..], was, region);
    }
  }

  /** A rotated token is refused from then on, whatever happens, until some operation brings it in again. */
  lemma RotatedTokenStops(hmac: string -> string, t: Table, id: string, was: string, c: Change, ops: seq<Op>,
                          region: string)
    requires Indexed(t) && IsHash(hmac) && id in Holders(hmac, t, was) && c.credential.Some?
    requires !BringsIn(hmac, OpUpdate(id, c), hmac(was)) && IsRun(hmac, Updated(hmac, t, id, c), ops)
    requires forall k :: 0 <= k < |ops| ==> !BringsIn(hmac, ops[k], hmac(was))
    ensures Login(hmac, Exec(hmac, Updated(hmac, t, id, c), ops), was, region) == Err(BadToken)
  {
    var u := Updated(hmac, t, id, c);
    LoginIsScan(hmac, t, was, region);
    SoundStep(hmac, t, OpUpdate(id, c));
    forall k | k in u.byID ensures k !in Holders(hmac, u, was) {
      assert k != id ==> k !in Holders(hmac, t, was);
    }
    UnheldTokenStaysOut(hmac, u, ops, was, region);
  }

  /** So is the token of a deleted user. */
  lemma DeletedTokenStops(hmac: string -> string, t: Table, id: string, was: string, ops: seq<Op>, region: string)
    requires Indexed(t) && IsHash(hmac) && id in Holders(hmac, t, was) && IsRun(hmac, Deleted(t, id), ops)
    requires forall k :: 0 <= k < |ops| ==> !BringsIn(hmac, ops[k], hmac(was))
    ensures Login(hmac, Exec(hmac, Deleted(t, id), ops), was, region) == Err(BadToken)
  {
    var u := Deleted(t, id);
    LoginIsScan(hmac, t, was, region);
    SoundStep(hmac, t, OpDelete(id));
    forall k | k in u.byID ensures k !in Holders(hmac, u, was) {
      assert k !in Holders(hmac, t, was);
    }
    UnheldTokenStaysOut(hmac, u, ops, was, region);
  }

  /**
   When two users share a credential, deleting or rotating one locks the other out: the index is no longer the scan.
   */
  lemma SharedCredentialLocksOut(hmac: string -> string, t: Table, a: string, b: string, token: string, c: Change,
                                 region: string)
    requires Sound(t) && a != b && a in Holders(hmac, t, token) && b in Holders(hmac, t, token)
    ensures b in Holders(hmac, Deleted(t, a), token) && Login(hmac, Deleted(t, a), token, region) == Err(BadToken)
    ensures c.credential.Some? && HashToken(hmac, c.credential.value) != hmac(token) ==>
              b in Holders(hmac, Updated(hmac, t, a, c), token)
                  && Login(hmac, Updated(hmac, t, a, c), token, region) == Err(BadToken)
  {
  }

  // ---- persistence ----

  lemma {:induction false} LoadedRecords(recs: seq<Record>)
    ensures var t := Loaded(recs);
            && (forall id :: id in t.byID ==> t.byID[id] in recs && t.byID[id].user.id == id)
            && (forall r :: r in recs ==> r.user.id in t.byID && (r.hash != "" ==> r.hash in t.byHash))
            && (forall h :: h in t.byHash ==>
                h != "" && exists r :: r in recs && r.hash == h && r.user.id == t.byHash[h])
  {
    if recs != [] {
      var before, last := recs[..|recs| - 1], recs[|recs| - 1];
      LoadedRecords(before);
      assert recs == before + [last];
      assert last in recs;
    }
  }

  /** Loading what a flush wrote, whatever the order, rebuilds the same table. */
  lemma LoadAfterFlush(t: Table, recs: seq<Record>)
    requires Indexed(t) && Lists(t.byID, recs)
    ensures Loaded(recs) == t
  {
    LoadsRecords(t, recs);
    LoadsIndex(t, recs);
  }

  lemma LoadsRecords(t: Table, recs: seq<Record>)
    requires Sound(t) && Lists(t.byID, recs)
    ensures Loaded(recs).byID == t.byID
  {
    LoadedRecords(recs);
    var u := Loaded(recs);
    assert u.byID.Keys == t.byID.Keys;
  }

  lemma LoadsIndex(t: Table, recs: seq<Record>)
    requires Indexed(t) && Lists(t.byID, recs)
    ensures Loaded(recs).byHash == t.byHash
  {
    LoadedRecords(recs);
    var u := Loaded(recs);
    forall h ensures h in u.byHash <==> h in t.byHash {
      if h in t.byHash {
        assert t.byID[t.byHash[h]] in recs;
      }
    }
  }
}
