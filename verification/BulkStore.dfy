/**
 The write side of the bulk operations: `PostgresStore.ApplyFieldUpdate` and `MoveChannel`,
 each one short transaction that runs alone on the rows it touches, with its dry-run form.
 */
module BulkStore {
  import opened MixedRisk
  import opened Options
  import opened Sets
  import opened Sorting
  import Text

  datatype Fields = Fields(enabled: bool, priority: int, staticWeight: int)

  /** A row of `provider_accounts` that is not deleted. */
  datatype Row = Row(tenantID: int, channelID: int, fields: Fields, nature: Nature) {
    function Kind(): Profile {
      ProfileOf(nature)
    }
  }

  datatype AuditBody =
    | FieldsAudit(before: Fields, after: Fields)
    | MoveAudit(from: int, to: int, highRisk: bool, confirmed: bool)

  datatype ItemAudit = ItemAudit(tenantID: int, accountID: int, body: AuditBody)

  datatype DB = DB(accounts: map<int, Row>, channels: map<int, int>, audits: seq<ItemAudit>)

  datatype Status = Succeeded | Skipped | Failed | WouldApply | WouldReject

  datatype Code =
    | NoCode | NotFound | AlreadyInDesiredState | AlreadyInChannel | ChannelNotFound | MixedRiskConfirmRequired

  datatype Detail =
    | NoDetail | FieldsDetail(before: Fields, after: Fields) | MoveDetail(from: int, to: int) | RiskDetail(to: int)

  datatype ItemResult = ItemResult(id: int, status: Status, code: Code, detail: Detail)

  datatype FieldChange = FieldChange(
    tenantID: int, enabled: Option<bool>, priority: Option<int>, staticWeight: Option<int>, dryRun: bool)

  datatype ChannelMove = ChannelMove(tenantID: int, targetID: int, confirm: bool, dryRun: bool)

  function Pick<T>(v: Option<T>, current: T): T {
    if v.None? then current else v.value
  }

  function Changed(c: FieldChange, f: Fields): Fields {
    Fields(Pick(c.enabled, f.enabled), Pick(c.priority, f.priority), Pick(c.staticWeight, f.staticWeight))
  }

  function Missing(id: int): ItemResult {
    ItemResult(id, Failed, NotFound, NoDetail)
  }

  /** `LockProviderAccountForBulk` finds the row: same tenant and not deleted. */
  predicate Visible(db: DB, tenantID: int, id: int) {
    id in db.accounts && db.accounts[id].tenantID == tenantID
  }

  /** What a field update of one account answers and leaves behind. */
  function UpdateFields(db: DB, c: FieldChange, id: int): (DB, ItemResult) {
    if !Visible(db, c.tenantID, id) then (db, Missing(id))
    else
      var row := db.accounts[id];
      var after := Changed(c, row.fields);
      if after == row.fields then (db, ItemResult(id, Skipped, AlreadyInDesiredState, NoDetail))
      else if c.dryRun then (db, ItemResult(id, WouldApply, NoCode, FieldsDetail(row.fields, after)))
      else
        (db.(accounts := db.accounts[id := row.(fields := after)],
             audits := db.audits + [ItemAudit(c.tenantID, id, FieldsAudit(row.fields, after))]),
         ItemResult(id, Succeeded, NoCode, NoDetail))
  }

  /** The accounts of the tenant that are in a channel. */
  function Members(db: DB, tenantID: int, channelID: int): map<int, Profile> {
    map a | a in db.accounts && db.accounts[a].tenantID == tenantID && db.accounts[a].channelID == channelID ::
      db.accounts[a].Kind()
  }

  ghost predicate HighRisk(db: DB, tenantID: int, channelID: int, id: int, profile: Profile) {
    Risky(Members(db, tenantID, channelID), id, profile)
  }

  /** What moving one account answers and leaves behind. */
  ghost function Move(db: DB, m: ChannelMove, id: int): (DB, ItemResult) {
    if !Visible(db, m.tenantID, id) then (db, Missing(id))
    else
      var row := db.accounts[id];
      if row.channelID == m.targetID then (db, ItemResult(id, Skipped, AlreadyInChannel, NoDetail))
      else if m.targetID !in db.channels || db.channels[m.targetID] != m.tenantID then
        (db, ItemResult(id, Failed, ChannelNotFound, NoDetail))
      else
        var high := HighRisk(db, m.tenantID, m.targetID, id, row.Kind());
        if high && !m.confirm then
          var status := if m.dryRun then WouldReject else Failed;
          (db, ItemResult(id, status, MixedRiskConfirmRequired, RiskDetail(m.targetID)))
        else if m.dryRun then (db, ItemResult(id, WouldApply, NoCode, MoveDetail(row.channelID, m.targetID)))
        else
          (db.(accounts := db.accounts[id := row.(channelID := m.targetID)],
               audits := db.audits
                 + [ItemAudit(m.tenantID, id, MoveAudit(row.channelID, m.targetID, high, m.confirm))]),
           ItemResult(id, Succeeded, NoCode, MoveDetail(row.channelID, m.targetID)))
  }

  /** Some account of the tenant in the channel differs from this one, by the fields of both. */
  predicate Clash(accounts: map<int, Row>, tenantID: int, channelID: int, id: int)
    requires id in accounts
  {
    exists a :: a in accounts && a != id && accounts[a].tenantID == tenantID && accounts[a].channelID == channelID
      && DifferAnyhow(accounts[a].nature, accounts[id].nature)
  }

  lemma ClashIsRisk(db: DB, tenantID: int, channelID: int, id: int)
    requires id in db.accounts
    ensures HighRisk(db, tenantID, channelID, id, db.accounts[id].Kind()) <==>
      Clash(db.accounts, tenantID, channelID, id)
  {
    var members := Members(db, tenantID, channelID);
    forall a | a in members
      ensures members[a] != db.accounts[id].Kind() <==> DifferAnyhow(db.accounts[a].nature, db.accounts[id].nature)
    {
      ProfilesDiffer(db.accounts[a].nature, db.accounts[id].nature);
    }
  }

  // ------------------------------------------------------------------ the store

  class Store {
    var accounts: map<int, Row>
    var channels: map<int, int>
    var audits: seq<ItemAudit>

    function View(): DB
      reads this
    {
      DB(accounts, channels, audits)
    }

    constructor (db: DB)
      ensures View() == db
    {
      accounts, channels, audits := db.accounts, db.channels, db.audits;
    }

    method ApplyFieldUpdate(c: FieldChange, id: int) returns (r: ItemResult)
      modifies this`accounts, this`audits
      ensures (View(), r) == UpdateFields(old(View()), c, id) && r.id == id
      ensures r.status == Succeeded ==>
        && id in old(accounts) && id in accounts && !c.dryRun
        && var (was, now) := (old(accounts)[id], accounts[id]);
        && accounts == old(accounts)[id := now] && now.fields != was.fields
        && now.tenantID == was.tenantID == c.tenantID && now.channelID == was.channelID && now.nature == was.nature
        && now.fields.enabled == (if c.enabled.Some? then c.enabled.value else was.fields.enabled)
        && now.fields.priority == (if c.priority.Some? then c.priority.value else was.fields.priority)
        && now.fields.staticWeight == (if c.staticWeight.Some? then c.staticWeight.value else was.fields.staticWeight)
        && audits == old(audits) + [ItemAudit(c.tenantID, id, FieldsAudit(was.fields, now.fields))]
      ensures r.status != Succeeded ==> accounts == old(accounts) && audits == old(audits)
    {
      if id !in accounts || accounts[id].tenantID != c.tenantID {
        return Missing(id);
      }
      var current := accounts[id].fields;
      if (c.enabled == None || c.enabled.value == current.enabled)
         && (c.priority == None || c.priority.value == current.priority)
         && (c.staticWeight == None || c.staticWeight.value == current.staticWeight) {
        return ItemResult(id, Skipped, AlreadyInDesiredState, NoDetail);
      }
      var after := Fields(Pick(c.enabled, current.enabled), Pick(c.priority, current.priority),
                          Pick(c.staticWeight, current.staticWeight));
      if c.dryRun {
        return ItemResult(id, WouldApply, NoCode, FieldsDetail(current, after));
      }
      accounts := accounts[id := accounts[id].(fields := after)];
      audits := audits + [ItemAudit(c.tenantID, id, FieldsAudit(current, after))];
      r := ItemResult(id, Succeeded, NoCode, NoDetail);
    }

    function AccountOf(a: int): Account
      requires a in accounts
      reads this
    {
      Account(a, accounts[a].channelID, accounts[a].nature)
    }

    predicate InChannel(a: int, tenantID: int, channelID: int)
      reads this
    {
      a in accounts && accounts[a].tenantID == tenantID && accounts[a].channelID == channelID
    }

    /** The accounts of a channel, in any order. */
    method ListRiskPeers(tenantID: int, channelID: int) returns (peers: seq<Account>)
      ensures forall x :: x in peers <==> InChannel(x.id, tenantID, channelID) && x == AccountOf(x.id)
      ensures forall x :: x in peers ==>
        x.id in accounts && x.channelID == channelID && x.nature == accounts[x.id].nature
    {
      peers := [];
      var todo := accounts.Keys;
      while todo != {}
        invariant todo <= accounts.Keys
        invariant forall x :: x in peers <==>
          x.id !in todo && InChannel(x.id, tenantID, channelID) && x == AccountOf(x.id)
        decreases todo
      {
        var a := AnyOf(todo);
        todo := todo - {a};
        if accounts[a].tenantID == tenantID && accounts[a].channelID == channelID {
          peers := peers + [AccountOf(a)];
        }
      }
    }

    /** The evaluation of the peers read judges the members of the target. */
    lemma JudgesMembers(tenantID: int, channelID: int, id: int, nature: Nature, peers: seq<Account>)
      requires forall x :: x in peers <==> InChannel(x.id, tenantID, channelID) && x == AccountOf(x.id)
      requires !InChannel(id, tenantID, channelID)
      ensures SomeDiffers(Account(id, channelID, nature), peers)
        <==> HighRisk(View(), tenantID, channelID, id, ProfileOf(nature))
    {
      var candidate := Account(id, channelID, nature);
      var members := Members(View(), tenantID, channelID);
      if SomeDiffers(candidate, peers) {
        var x :| x in peers && Compared(candidate, x) && ProfileOf(x.nature) != ProfileOf(nature);
        assert x.id in members && members[x.id] == ProfileOf(x.nature);
      }
      if HighRisk(View(), tenantID, channelID, id, ProfileOf(nature)) {
        var a :| a in members && a != id && members[a] != ProfileOf(nature);
        assert AccountOf(a) in peers && Compared(candidate, AccountOf(a));
      }
    }

    method MoveChannel(m: ChannelMove, id: int) returns (r: ItemResult)
      modifies this`accounts, this`audits
      ensures (View(), r) == Move(old(View()), m, id) && r.id == id
      ensures r.code == MixedRiskConfirmRequired <==>
        && id in old(accounts) && old(accounts)[id].tenantID == m.tenantID && old(accounts)[id].channelID != m.targetID
        && m.targetID in old(channels) && old(channels)[m.targetID] == m.tenantID
        && !m.confirm && Clash(old(accounts), m.tenantID, m.targetID, id)
    {
      if id !in accounts || accounts[id].tenantID != m.tenantID {
        return Missing(id);
      }
      var from := accounts[id].channelID;
      if from == m.targetID {
        return ItemResult(id, Skipped, AlreadyInChannel, NoDetail);
      }
      if m.targetID !in channels || channels[m.targetID] != m.tenantID {
        return ItemResult(id, Failed, ChannelNotFound, NoDetail);
      }
      var peers := ListRiskPeers(m.tenantID, m.targetID);
      var high, _ := Evaluate(Account(id, m.targetID, accounts[id].nature), peers);
      JudgesMembers(m.tenantID, m.targetID, id, accounts[id].nature, peers);
      ClashIsRisk(View(), m.tenantID, m.targetID, id);
      if high && !m.confirm {
        var status := if m.dryRun then WouldReject else Failed;
        return ItemResult(id, status, MixedRiskConfirmRequired, RiskDetail(m.targetID));
      }
      if m.dryRun {
        return ItemResult(id, WouldApply, NoCode, MoveDetail(from, m.targetID));
      }
      accounts := accounts[id := accounts[id].(channelID := m.targetID)];
      audits := audits + [ItemAudit(m.tenantID, id, MoveAudit(from, m.targetID, high, m.confirm))];
      r := ItemResult(id, Succeeded, NoCode, MoveDetail(from, m.targetID));
    }

    /** The batch loop of `executor.run` over the selected accounts, one transaction after the other. */
    method UpdateEach(c: FieldChange, ids: seq<int>) returns (results: seq<ItemResult>)
      modifies this`accounts, this`audits
      ensures (View(), results) == UpdateAll(old(View()), c, ids)
    {
      results := [];
      for i := 0 to |ids|
        invariant (View(), results) == UpdateAll(old(View()), c, ids[..i])
      {
        assert ids[..i + 1][..i] == ids[..i];
        var r := ApplyFieldUpdate(c, ids[i]);
        results := results + [r];
      }
      assert ids[..|ids|] == ids;
    }

    method MoveEach(m: ChannelMove, ids: seq<int>) returns (results: seq<ItemResult>)
      modifies this`accounts, this`audits
      ensures (View(), results) == MoveAll(old(View()), m, ids)
    {
      results := [];
      for i := 0 to |ids|
        invariant (View(), results) == MoveAll(old(View()), m, ids[..i])
      {
        assert ids[..i + 1][..i] == ids[..i];
        var r := MoveChannel(m, ids[i]);
        results := results + [r];
      }
      assert ids[..|ids|] == ids;
    }
  }

  // -------------------------------------------------------------- one item, dry and real

  /** The status a dry run announces for a real outcome. */
  function Announced(r: ItemResult): Status {
    if r.status == Succeeded then WouldApply
    else if r.status == Failed && r.code == MixedRiskConfirmRequired then WouldReject
    else r.status
  }

  /** A dry field update changes nothing, announces the real status and shows the real result. */
  lemma FieldPreviewIsFaithful(db: DB, c: FieldChange, id: int)
    requires !c.dryRun
    ensures var (dryDB, dry) := UpdateFields(db, c.(dryRun := true), id);
      var (after, done) := UpdateFields(db, c, id);
      && dryDB == db
      && dry.status == Announced(done) && dry.code == done.code
      && (done.status != Succeeded ==> after == db)
      && (done.status == Succeeded ==>
            && Visible(db, c.tenantID, id) && id in after.accounts
            && dry.detail == FieldsDetail(db.accounts[id].fields, after.accounts[id].fields)
            && dry.detail.before != dry.detail.after
            && after == db.(
                 accounts := db.accounts[id := db.accounts[id].(fields := dry.detail.after)],
                 audits := db.audits + [ItemAudit(c.tenantID, id, FieldsAudit(dry.detail.before, dry.detail.after))]))
  {
  }

  /** The same for a move; a missing confirmation is announced as a rejection. */
  lemma MovePreviewIsFaithful(db: DB, m: ChannelMove, id: int)
    requires !m.dryRun
    ensures var (dryDB, dry) := Move(db, m.(dryRun := true), id);
      var (after, done) := Move(db, m, id);
      && dryDB == db
      && dry.status == Announced(done) && dry.code == done.code && dry.detail == done.detail
      && (done.status != Succeeded ==> after == db)
      && (done.status == Succeeded ==>
            && Visible(db, m.tenantID, id)
            && dry.detail == MoveDetail(db.accounts[id].channelID, m.targetID)
            && after.accounts == db.accounts[id := db.accounts[id].(channelID := m.targetID)]
            && after.channels == db.channels && |after.audits| == |db.audits| + 1)
  {
  }

  // ------------------------------------------------------------------ whole batches

  function UpdateAll(db: DB, c: FieldChange, ids: seq<int>): (DB, seq<ItemResult>) {
    if ids == [] then (db, [])
    else
      var (before, results) := UpdateAll(db, c, ids[..|ids| - 1]);
      var (after, r) := UpdateFields(before, c, ids[|ids| - 1]);
      (after, results + [r])
  }

  ghost function MoveAll(db: DB, m: ChannelMove, ids: seq<int>): (DB, seq<ItemResult>) {
    if ids == [] then (db, [])
    else
      var (before, results) := MoveAll(db, m, ids[..|ids| - 1]);
      var (after, r) := Move(before, m, ids[|ids| - 1]);
      (after, results + [r])
  }

  /** Nothing is left to write for this account. */
  predicate Settled(db: DB, c: FieldChange, id: int) {
    Visible(db, c.tenantID, id) ==> Changed(c, db.accounts[id].fields) == db.accounts[id].fields
  }

  /** The row of an account after a batch over these ids. */
  function AfterBatch(db: DB, c: FieldChange, ids: seq<int>, id: int): Row
    requires id in db.accounts
  {
    if id in ids && Visible(db, c.tenantID, id) then db.accounts[id].(fields := Changed(c, db.accounts[id].fields))
    else db.accounts[id]
  }

  /** A batch writes the requested fields of the accounts it names and sees, and nothing else. */
  lemma {:induction false} UpdateAllSettles(db: DB, c: FieldChange, ids: seq<int>)
    requires !c.dryRun
    ensures var after := UpdateAll(db, c, ids).0;
      && (forall id :: id in db.accounts <==> id in after.accounts)
      && (forall id :: id in db.accounts ==> after.accounts[id] == AfterBatch(db, c, ids, id))
      && (forall id :: id in ids ==> Settled(after, c, id))
      && after.channels == db.channels
    ensures |UpdateAll(db, c, ids).1| == |ids|
  {
    if ids != [] {
      var front, last := ids[..|ids| - 1], ids[|ids| - 1];
      UpdateAllSettles(db, c, front);
      var before, after := UpdateAll(db, c, front).0, UpdateAll(db, c, ids).0;
      assert forall id :: id in ids <==> id in front || id == last;
      forall id | id in db.accounts ensures id in after.accounts && after.accounts[id] == AfterBatch(db, c, ids, id) {
        assert before.accounts[id] == AfterBatch(db, c, front, id);
      }
    }
  }

  /** The answer of an update that finds nothing to do. */
  function Replayed(db: DB, c: FieldChange, id: int): ItemResult {
    if Visible(db, c.tenantID, id) then ItemResult(id, Skipped, AlreadyInDesiredState, NoDetail) else Missing(id)
  }

  lemma {:induction false} SettledStays(db: DB, c: FieldChange, ids: seq<int>)
    requires !c.dryRun && forall id :: id in ids ==> Settled(db, c, id)
    ensures UpdateAll(db, c, ids).0 == db
    ensures |UpdateAll(db, c, ids).1| == |ids|
    ensures forall i :: 0 <= i < |ids| ==> UpdateAll(db, c, ids).1[i] == Replayed(db, c, ids[i])
  {
    if ids != [] {
      SettledStays(db, c, ids[..|ids| - 1]);
      assert Settled(db, c, ids[|ids| - 1]);
    }
  }

  /**
   Sending a finished set_* batch again writes no row and no audit: every account is skipped,
   except those that were not there in the first place.
   */
  lemma ReplayWritesNothing(db: DB, c: FieldChange, ids: seq<int>)
    requires !c.dryRun
    ensures var once := UpdateAll(db, c, ids).0;
      var (twice, results) := UpdateAll(once, c, ids);
      && twice == once
      && |results| == |ids|
      && forall i :: 0 <= i < |ids| ==> results[i] == Replayed(db, c, ids[i])
  {
    UpdateAllSettles(db, c, ids);
    SettledStays(UpdateAll(db, c, ids).0, c, ids);
  }

  /**
   A dry run of a set_* batch over distinct accounts changes nothing and foretells, item by
   item, the status, the code and the field values the real batch ends with.
   */
  lemma {:induction false} FieldBatchPreviewIsFaithful(db: DB, c: FieldChange, ids: seq<int>)
    requires !c.dryRun && Distinct(ids)
    ensures var (dryDB, dry) := UpdateAll(db, c.(dryRun := true), ids);
      var (after, done) := UpdateAll(db, c, ids);
      && dryDB == db && |dry| == |done| == |ids|
      && forall i :: 0 <= i < |ids| ==>
           && dry[i].status == Announced(done[i]) && dry[i].code == done[i].code
           && (done[i].status == Succeeded ==>
                 ids[i] in db.accounts && ids[i] in after.accounts
                 && dry[i].detail == FieldsDetail(db.accounts[ids[i]].fields, after.accounts[ids[i]].fields))
  {
    if ids != [] {
      var front, last := ids[..|ids| - 1], ids[|ids| - 1];
      FieldBatchPreviewIsFaithful(db, c, front);
      UpdateAllSettles(db, c, front);
      assert last !in front;
      var before := UpdateAll(db, c, front).0;
      FieldPreviewIsFaithful(db, c, last);
      FieldPreviewIsFaithful(before, c, last);
      assert UpdateFields(before, c, last).1 == UpdateFields(db, c, last).1;
    }
  }

  // ------------------------------------------------------- when a move preview can be trusted

  /** The dry run of a move batch announces every status the real batch ends with. */
  ghost predicate MovePreviewHolds(db: DB, m: ChannelMove, ids: seq<int>) {
    var dry, done := MoveAll(db, m.(dryRun := true), ids).1, MoveAll(db, m, ids).1;
    |dry| == |done| && forall i :: 0 <= i < |dry| && i < |done| ==> dry[i].status == Announced(done[i])
  }

  /** The account is there and elsewhere, the target is there, and no member of it differs unless that is confirmed. */
  ghost predicate Movable(db: DB, m: ChannelMove, id: int) {
    && Visible(db, m.tenantID, id) && db.accounts[id].channelID != m.targetID
    && m.targetID in db.channels && db.channels[m.targetID] == m.tenantID
    && (m.confirm || !Risky(Members(db, m.tenantID, m.targetID), id, db.accounts[id].Kind()))
  }

  /** These are the accounts the dry run of a single move says it would move. */
  lemma MovableIsAnnounced(db: DB, m: ChannelMove, id: int)
    ensures Movable(db, m, id) <==> Move(db, m.(dryRun := true), id).1.status == WouldApply
  {
  }

  /** Confirmed, or all movable accounts are of one kind. */
  ghost predicate OneKind(db: DB, m: ChannelMove, ids: seq<int>) {
    || m.confirm
    || forall i, j :: 0 <= i < j < |ids| && Movable(db, m, ids[i]) && Movable(db, m, ids[j]) ==>
         db.accounts[ids[i]].Kind() == db.accounts[ids[j]].Kind()
  }

  lemma {:induction false} DryMovesAreSingle(db: DB, m: ChannelMove, ids: seq<int>)
    requires m.dryRun
    ensures MoveAll(db, m, ids).0 == db && |MoveAll(db, m, ids).1| == |ids|
    ensures forall i :: 0 <= i < |ids| ==> MoveAll(db, m, ids).1[i] == Move(db, m, ids[i]).1
  {
    if ids != [] {
      DryMovesAreSingle(db, m, ids[..|ids| - 1]);
    }
  }

  /** After some moves only the movable accounts of the list are elsewhere: in the target. */
  ghost predicate MovedExactly(db: DB, m: ChannelMove, ids: seq<int>, now: DB) {
    && now.channels == db.channels
    && now.accounts.Keys == db.accounts.Keys
    && forall id :: id in db.accounts ==>
         now.accounts[id] == db.accounts[id].(channelID :=
           if id in ids && Movable(db, m, id) then m.targetID else db.accounts[id].channelID)
  }

  /** Some account moved before is of another kind than this one. */
  ghost predicate Clashes(db: DB, m: ChannelMove, front: seq<int>, last: int) {
    Movable(db, m, last) && !m.confirm && MovedOther(db, m, front, db.accounts[last].Kind())
  }

  /** Some account of the list was moved and is of another kind. */
  ghost predicate MovedOther(db: DB, m: ChannelMove, front: seq<int>, kind: Profile) {
    exists i :: 0 <= i < |front| && Movable(db, m, front[i]) && db.accounts[front[i]].Kind() != kind
  }

  /** A further account is judged against the old members and those moved before it. */
  lemma RiskAfterMoves(db: DB, m: ChannelMove, front: seq<int>, now: DB, last: int, kind: Profile)
    requires MovedExactly(db, m, front, now) && last !in front
    ensures Risky(Members(now, m.tenantID, m.targetID), last, kind) <==>
      Risky(Members(db, m.tenantID, m.targetID), last, kind) || MovedOther(db, m, front, kind)
  {
    var before, after := Members(db, m.tenantID, m.targetID), Members(now, m.tenantID, m.targetID);
    if a :| a in after && a != last && after[a] != kind {
      if a !in before {
        assert a in front && Movable(db, m, a);
        var i :| 0 <= i < |front| && front[i] == a;
      }
    }
    if a :| a in before && a != last && before[a] != kind {
      assert a in after && after[a] == before[a];
    }
    if i :| 0 <= i < |front| && Movable(db, m, front[i]) && db.accounts[front[i]].Kind() != kind {
      assert front[i] in after && front[i] != last;
    }
  }

  /** How one more move ends after those before it. */
  lemma NextMove(db: DB, m: ChannelMove, front: seq<int>, now: DB, last: int)
    requires !m.dryRun && MovedExactly(db, m, front, now) && last !in front
    ensures var foretold, done := Move(db, m.(dryRun := true), last).1, Move(now, m, last).1;
      foretold.status == Announced(done) <==> !Clashes(db, m, front, last)
  {
    if last in db.accounts { RiskAfterMoves(db, m, front, now, last, db.accounts[last].Kind()); }
  }

  lemma NextMoves(db: DB, m: ChannelMove, front: seq<int>, now: DB, last: int)
    requires !m.dryRun && MovedExactly(db, m, front, now) && last !in front && !Clashes(db, m, front, last)
    ensures MovedExactly(db, m, front + [last], Move(now, m, last).0)
  {
    if last in db.accounts { RiskAfterMoves(db, m, front, now, last, db.accounts[last].Kind()); }
  }

  lemma PreviewOfLast(db: DB, m: ChannelMove, ids: seq<int>)
    requires !m.dryRun && ids != [] && |MoveAll(db, m, ids[..|ids| - 1]).1| == |ids| - 1
    ensures |MoveAll(db, m, ids).1| == |ids|
    ensures MovePreviewHolds(db, m, ids) <==>
      && MovePreviewHolds(db, m, ids[..|ids| - 1])
      && Move(db, m.(dryRun := true), ids[|ids| - 1]).1.status
           == Announced(Move(MoveAll(db, m, ids[..|ids| - 1]).0, m, ids[|ids| - 1]).1)
  {
    DryMovesAreSingle(db, m.(dryRun := true), ids);
    DryMovesAreSingle(db, m.(dryRun := true), ids[..|ids| - 1]);
    var dry, done := MoveAll(db, m.(dryRun := true), ids).1, MoveAll(db, m, ids).1;
    var dry', done' := MoveAll(db, m.(dryRun := true), ids[..|ids| - 1]).1, MoveAll(db, m, ids[..|ids| - 1]).1;
    assert dry == dry' + [dry[|ids| - 1]] && done == done' + [done[|ids| - 1]];
  }

  lemma KindOfLast(db: DB, m: ChannelMove, front: seq<int>, last: int)
    ensures OneKind(db, m, front + [last]) <==> OneKind(db, m, front) && !Clashes(db, m, front, last)
  {
    var ids := front + [last];
    if OneKind(db, m, ids) && !m.confirm {
      forall i, j | 0 <= i < j < |front| && Movable(db, m, front[i]) && Movable(db, m, front[j])
        ensures db.accounts[front[i]].Kind() == db.accounts[front[j]].Kind()
      {
        assert ids[i] == front[i] && ids[j] == front[j];
      }
      forall i | 0 <= i < |front| && Movable(db, m, front[i]) && Movable(db, m, last)
        ensures db.accounts[front[i]].Kind() == db.accounts[last].Kind()
      {
        assert ids[i] == front[i] && ids[|front|] == last;
      }
    }
  }

  lemma {:induction false} MovePreviewPrefix(db: DB, m: ChannelMove, ids: seq<int>)
    requires !m.dryRun && Distinct(ids)
    ensures |MoveAll(db, m, ids).1| == |ids|
    ensures MovePreviewHolds(db, m, ids) <==> OneKind(db, m, ids)
    ensures MovePreviewHolds(db, m, ids) ==> MovedExactly(db, m, ids, MoveAll(db, m, ids).0)
  {
    if ids != [] {
      var front, last := ids[..|ids| - 1], ids[|ids| - 1];
      assert ids == front + [last] && last !in front;
      MovePreviewPrefix(db, m, front);
      PreviewOfLast(db, m, ids);
      KindOfLast(db, m, front, last);
      if MovePreviewHolds(db, m, front) {
        NextMove(db, m, front, MoveAll(db, m, front).0, last);
        if !Clashes(db, m, front, last) { NextMoves(db, m, front, MoveAll(db, m, front).0, last); }
      }
    }
  }

  /**
   A move batch, unlike a set_* batch, can be previewed wrongly: its dry run judges every
   account against the members of the target as they are now, not against the accounts moved
   before it. The preview holds exactly when the moves are confirmed or all accounts it would
   move are of one kind.
   */
  lemma MoveBatchPreview(db: DB, m: ChannelMove, ids: seq<int>)
    requires !m.dryRun && Distinct(ids)
    ensures MovePreviewHolds(db, m, ids) <==> OneKind(db, m, ids)
  {
    MovePreviewPrefix(db, m, ids);
  }

  /** Two accounts of different vendors and an empty target: both would be applied, one is refused. */
  lemma MovePreviewCanMislead()
    ensures var row := (vendor: string) => Row(1, 10, Fields(true, 0, 1), Nature(1, "", vendor, "api_key"));
      var db := DB(map[7 := row("openai"), 8 := row("anthropic")], map[10 := 1, 11 := 1], []);
      var m := ChannelMove(1, 11, false, false);
      && Movable(db, m, 7) && Movable(db, m, 8)
      && !MovePreviewHolds(db, m, [7, 8])
  {
    var row := (vendor: string) => Row(1, 10, Fields(true, 0, 1), Nature(1, "", vendor, "api_key"));
    var db := DB(map[7 := row("openai"), 8 := row("anthropic")], map[10 := 1, 11 := 1], []);
    var m := ChannelMove(1, 11, false, false);
    var ids := [7, 8];
    Kinds();
    assert Movable(db, m, ids[0]) && Movable(db, m, ids[1]);
    assert db.accounts[ids[0]].Kind() != db.accounts[ids[1]].Kind();
    MoveBatchPreview(db, m, ids);
  }

  lemma Kinds()
    ensures |Normalized("openai")| == 6 && |Normalized("anthropic")| == 9
  {
    assert Text.Trim("openai") == "openai" && Text.Trim("anthropic") == "anthropic";
  }
}
