// The two table rebuilds that add attribution columns, and the downgrades that drop them again.
//
// A row carries the columns the rebuild looks at; `rest` stands for all others, which are copied
// untouched. A column the schema does not have yet holds None. `schemaAsExpected` stands for the
// checks of declarations, columns, triggers and indexes.
module LosslessRebuild {
  import opened Common

  type Id = int

  datatype Refusal =
    | UnexpectedRevision | InconsistentKeys | PendingGuard | ActorMismatch | CrossLibrary | CredentialMismatch
    | UnexpectedSchema | MasterAttributed | WithoutCaller

  // ---- 0017: the actor's home Library ----

  datatype TableName = AuditEvents | IdempotencyRecords | Corrections | LifecycleEvents | CorrectionGuards | LifecycleGuards
  const TABLES := [AuditEvents, IdempotencyRecords, Corrections, CorrectionGuards, LifecycleEvents, LifecycleGuards]
  const CREATE_ORDER := [AuditEvents, IdempotencyRecords, Corrections, LifecycleEvents, CorrectionGuards, LifecycleGuards]

  datatype Row = Row(library: Id, home: Option<Id>, caller: Id, credential: Id, rest: Id)

  datatype HomeDb = HomeDb(
    upgraded: bool, schemaAsExpected: bool, libraries: set<Id>, callers: set<(Id, Id)>, credentials: set<(Id, Id, Id)>,
    rows: map<TableName, seq<Row>>)

  function RowsIn(db: HomeDb, t: TableName): seq<Row> { if t in db.rows then db.rows[t] else [] }

  // The Library the actor belongs to, in either schema.
  function HomeOf(row: Row): Id { if row.home.Some? then row.home.value else row.library }

  predicate CallerKnown(db: HomeDb, row: Row) { (row.caller, HomeOf(row)) in db.callers }

  predicate CredentialKnown(db: HomeDb, row: Row) { (row.credential, row.caller, HomeOf(row)) in db.credentials }

  predicate CallersKnown(db: HomeDb, t: TableName) {
    forall i :: 0 <= i < |RowsIn(db, t)| ==> CallerKnown(db, RowsIn(db, t)[i])
  }

  predicate CredentialsKnown(db: HomeDb) {
    forall i :: 0 <= i < |RowsIn(db, AuditEvents)| ==> CredentialKnown(db, RowsIn(db, AuditEvents)[i])
  }

  predicate AtHome(db: HomeDb, t: TableName) {
    forall i :: 0 <= i < |RowsIn(db, t)| ==> RowsIn(db, t)[i].home == Some(RowsIn(db, t)[i].library)
  }

  // Only the upgraded schema has the target-Library keys.
  predicate TargetsKnown(db: HomeDb) {
    db.upgraded ==> forall t, i :: t in {AuditEvents, IdempotencyRecords} && 0 <= i < |RowsIn(db, t)| ==> RowsIn(db, t)[i].library in db.libraries
  }

  // PRAGMA foreign_key_check.
  predicate ForeignKeys(db: HomeDb) {
    && (forall c :: c in db.callers ==> c.1 in db.libraries)
    && (forall t :: t in TABLES ==> CallersKnown(db, t))
    && CredentialsKnown(db) && TargetsKnown(db)
  }

  // The rows fit their schema: the home column is there exactly after the upgrade.
  predicate FitsSchema(db: HomeDb) {
    && (forall t :: t in db.rows <==> t in TABLES)
    && forall t :: t in TABLES ==> forall i :: 0 <= i < |RowsIn(db, t)| ==> (RowsIn(db, t)[i].home.Some? <==> db.upgraded)
  }

  // Why a rebuild is refused, in the order of the checks.
  function Preflight(db: HomeDb, upgrading: bool): Option<Refusal> {
    if db.upgraded == upgrading then Some(UnexpectedRevision)
    else if !ForeignKeys(db) then Some(InconsistentKeys)
    else if RowsIn(db, CorrectionGuards) != [] || RowsIn(db, LifecycleGuards) != [] then Some(PendingGuard)
    else if FirstActorFault(db, upgrading, 0).Some? then FirstActorFault(db, upgrading, 0)
    else if !CredentialsKnown(db) then Some(CredentialMismatch)
    else if !db.schemaAsExpected then Some(UnexpectedSchema)
    else None
  }

  function FirstActorFault(db: HomeDb, upgrading: bool, n: nat): Option<Refusal>
    requires n <= |TABLES|
    decreases |TABLES| - n
  {
    if n == |TABLES| then None
    else if !CallersKnown(db, TABLES[n]) then Some(ActorMismatch)
    else if !upgrading && !AtHome(db, TABLES[n]) then Some(CrossLibrary)
    else FirstActorFault(db, upgrading, n + 1)
  }

  function Converted(row: Row, upgrading: bool): Row {
    row.(home := if upgrading then Some(row.library) else None)
  }

  function ConvertedRows(rows: seq<Row>, upgrading: bool): seq<Row> {
    seq(|rows|, i requires 0 <= i < |rows| => Converted(rows[i], upgrading))
  }

  function ConvertedDb(db: HomeDb, upgrading: bool): HomeDb {
    db.(upgraded := upgrading, rows := map t | t in TABLES :: ConvertedRows(RowsIn(db, t), upgrading))
  }

  // What a rebuild leaves behind; a refused one is rolled back. The last check is of the foreign keys.
  function Rebuild(db: HomeDb, upgrading: bool): Result<HomeDb, Refusal> {
    if Preflight(db, upgrading).Some? then Err(Preflight(db, upgrading).value)
    else if !ForeignKeys(ConvertedDb(db, upgrading)) then Err(InconsistentKeys)
    else Ok(ConvertedDb(db, upgrading))
  }

  lemma ConvertedIn(db: HomeDb, upgrading: bool, t: TableName)
    requires t in TABLES
    ensures RowsIn(ConvertedDb(db, upgrading), t) == ConvertedRows(RowsIn(db, t), upgrading)
  {
  }

  lemma {:induction false} NoActorFault(db: HomeDb, upgrading: bool, n: nat)
    requires n <= |TABLES|
    ensures FirstActorFault(db, upgrading, n).None?
       <==> forall k :: n <= k < |TABLES| ==> CallersKnown(db, TABLES[k]) && (!upgrading ==> AtHome(db, TABLES[k]))
    decreases |TABLES| - n
  {
    if n < |TABLES| {
      NoActorFault(db, upgrading, n + 1);
    }
  }

  lemma ConvertedFits(db: HomeDb, upgrading: bool)
    ensures FitsSchema(ConvertedDb(db, upgrading))
  {
    forall t | t in TABLES ensures RowsIn(ConvertedDb(db, upgrading), t) == ConvertedRows(RowsIn(db, t), upgrading) {
      ConvertedIn(db, upgrading, t);
    }
  }

  // Where every actor is at home the conversion changes nobody's home, so it can be undone.
  ghost predicate Undoable(db: HomeDb, upgrading: bool) {
    FitsSchema(db) && db.upgraded == !upgrading && (!upgrading ==> forall t :: t in TABLES ==> AtHome(db, t))
  }

  lemma ConvertedBack(db: HomeDb, upgrading: bool)
    requires Undoable(db, upgrading)
    ensures ConvertedDb(ConvertedDb(db, upgrading), !upgrading) == db
  {
    var back := ConvertedDb(ConvertedDb(db, upgrading), !upgrading);
    forall t | t in TABLES ensures back.rows[t] == db.rows[t] {
      ConvertedIn(db, upgrading, t);
      RowsBack(db, upgrading, t);
    }
  }

  lemma RowsBack(db: HomeDb, upgrading: bool, t: TableName)
    requires Undoable(db, upgrading) && t in TABLES
    ensures ConvertedRows(ConvertedRows(RowsIn(db, t), upgrading), !upgrading) == RowsIn(db, t)
  {
    if !upgrading {
      assert AtHome(db, t);
    }
  }

  lemma SameCaller(db: HomeDb, upgrading: bool, t: TableName, i: nat)
    requires Undoable(db, upgrading) && t in TABLES && i < |RowsIn(db, t)|
    ensures var u := ConvertedDb(db, upgrading);
            && i < |RowsIn(u, t)|
            && (CallerKnown(u, RowsIn(u, t)[i]) <==> CallerKnown(db, RowsIn(db, t)[i]))
            && (upgrading ==> RowsIn(u, t)[i].home == Some(RowsIn(u, t)[i].library))
  {
    ConvertedIn(db, upgrading, t);
    SameHomes(db, upgrading, t);
  }

  lemma SameLength(db: HomeDb, upgrading: bool, t: TableName)
    requires t in TABLES
    ensures |RowsIn(ConvertedDb(db, upgrading), t)| == |RowsIn(db, t)|
  {
    ConvertedIn(db, upgrading, t);
  }

  lemma SameCallers(db: HomeDb, upgrading: bool, t: TableName)
    requires Undoable(db, upgrading) && t in TABLES
    ensures CallersKnown(ConvertedDb(db, upgrading), t) <==> CallersKnown(db, t)
    ensures upgrading ==> AtHome(ConvertedDb(db, upgrading), t)
  {
    hide Undoable, ConvertedDb, RowsIn, CallerKnown;
    SameLength(db, upgrading, t);
    var u := ConvertedDb(db, upgrading);
    forall i | 0 <= i < |RowsIn(db, t)|
      ensures CallerKnown(u, RowsIn(u, t)[i]) <==> CallerKnown(db, RowsIn(db, t)[i])
      ensures upgrading ==> RowsIn(u, t)[i].home == Some(RowsIn(u, t)[i].library)
    {
      SameCaller(db, upgrading, t, i);
    }
  }

  lemma SameHomes(db: HomeDb, upgrading: bool, t: TableName)
    requires Undoable(db, upgrading) && t in TABLES
    ensures forall i :: 0 <= i < |RowsIn(db, t)| ==> HomeOf(Converted(RowsIn(db, t)[i], upgrading)) == HomeOf(RowsIn(db, t)[i])
  {
    if !upgrading {
      assert AtHome(db, t);
    }
  }

  lemma SameCredentials(db: HomeDb, upgrading: bool)
    requires Undoable(db, upgrading)
    ensures CredentialsKnown(ConvertedDb(db, upgrading)) <==> CredentialsKnown(db)
  {
    assert AuditEvents == TABLES[0];
    ConvertedIn(db, upgrading, AuditEvents);
    SameHomes(db, upgrading, AuditEvents);
    var a, b := RowsIn(db, AuditEvents), RowsIn(ConvertedDb(db, upgrading), AuditEvents);
    forall i | 0 <= i < |a| ensures CredentialKnown(db, a[i]) <==> CredentialKnown(ConvertedDb(db, upgrading), b[i]) {
    }
  }

  lemma SameGuards(db: HomeDb, upgrading: bool)
    requires RowsIn(db, CorrectionGuards) == [] && RowsIn(db, LifecycleGuards) == []
    ensures RowsIn(ConvertedDb(db, upgrading), CorrectionGuards) == [] && RowsIn(ConvertedDb(db, upgrading), LifecycleGuards) == []
  {
    assert TABLES[3] == CorrectionGuards && TABLES[5] == LifecycleGuards;
    ConvertedIn(db, upgrading, CorrectionGuards);
    ConvertedIn(db, upgrading, LifecycleGuards);
  }

  lemma PreflightFacts(db: HomeDb, upgrading: bool)
    requires FitsSchema(db)
    ensures Preflight(db, upgrading).None?
       <==> && db.upgraded == !upgrading && ForeignKeys(db)
            && RowsIn(db, CorrectionGuards) == [] && RowsIn(db, LifecycleGuards) == []
            && (!upgrading ==> forall t :: t in TABLES ==> AtHome(db, t))
            && db.schemaAsExpected
  {
    NoActorFault(db, upgrading, 0);
    hide FirstActorFault, AtHome, CallersKnown, CredentialsKnown, FitsSchema;
    forall t | t in TABLES ensures exists k :: 0 <= k < |TABLES| && TABLES[k] == t {
    }
  }

  // The rows of one table may be converted: the actor of each is known in the Library of the row, and is at
  // home there before a downgrade.
  predicate RowsConvertible(db: HomeDb, t: TableName, upgrading: bool)
    requires t in db.rows
  {
    forall i :: 0 <= i < |db.rows[t]| ==>
      var row := db.rows[t][i];
      && (row.caller, row.library) in db.callers
      && (t == AuditEvents ==> (row.credential, row.caller, row.library) in db.credentials)
      && (!upgrading ==> row.home == Some(row.library))
  }

  // Everything a rebuild asks for: the other schema as it should be, consistent Libraries, no pending guard,
  // and rows that may be converted.
  predicate Convertible(db: HomeDb, upgrading: bool)
    requires FitsSchema(db)
  {
    && db.upgraded != upgrading && db.schemaAsExpected
    && (forall c :: c in db.callers ==> c.1 in db.libraries)
    && AuditEvents in db.rows && IdempotencyRecords in db.rows && Corrections in db.rows && LifecycleEvents in db.rows
    && RowsConvertible(db, AuditEvents, upgrading) && RowsConvertible(db, IdempotencyRecords, upgrading)
    && RowsConvertible(db, Corrections, upgrading) && RowsConvertible(db, LifecycleEvents, upgrading)
    && RowsIn(db, CorrectionGuards) == [] && RowsIn(db, LifecycleGuards) == []
  }

  lemma AllTables()
    ensures forall t: TableName :: t in TABLES
  {
    SameTables();
    forall t: TableName ensures t in TABLES {
      match t
      case AuditEvents => assert TABLES[0] == t;
      case IdempotencyRecords => assert TABLES[1] == t;
      case Corrections => assert TABLES[2] == t;
      case CorrectionGuards => assert TABLES[3] == t;
      case LifecycleEvents => assert TABLES[4] == t;
      case LifecycleGuards => assert TABLES[5] == t;
    }
  }

  lemma TableConvertible(db: HomeDb, t: TableName, upgrading: bool)
    requires FitsSchema(db) && t in TABLES && db.upgraded == !upgrading
    ensures t in db.rows
    ensures RowsConvertible(db, t, upgrading) <==>
            && CallersKnown(db, t) && (!upgrading ==> AtHome(db, t)) && (t == AuditEvents ==> CredentialsKnown(db))
  {
    var rows := RowsIn(db, t);
    assert rows == db.rows[t];
    if CallersKnown(db, t) && (!upgrading ==> AtHome(db, t)) {
      forall i | 0 <= i < |rows| ensures HomeOf(rows[i]) == rows[i].library && (rows[i].caller, rows[i].library) in db.callers {
        assert CallerKnown(db, rows[i]);
      }
      if t == AuditEvents && CredentialsKnown(db) {
        forall i | 0 <= i < |rows| ensures (rows[i].credential, rows[i].caller, rows[i].library) in db.credentials {
          assert CredentialKnown(db, rows[i]);
        }
      }
    }
    if RowsConvertible(db, t, upgrading) {
      forall i | 0 <= i < |rows| ensures HomeOf(rows[i]) == rows[i].library {
      }
    }
  }

  lemma PreflightIs(db: HomeDb, upgrading: bool)
    requires FitsSchema(db)
    ensures Preflight(db, upgrading).None? <==> Convertible(db, upgrading)
  {
    hide Preflight, FitsSchema, RowsConvertible, CallersKnown, AtHome, CredentialsKnown, TargetsKnown, TABLES, RowsIn;
    PreflightFacts(db, upgrading);
    AllTables();
    if db.upgraded == !upgrading {
      forall t: TableName ensures t in db.rows && (RowsConvertible(db, t, upgrading) <==>
          CallersKnown(db, t) && (!upgrading ==> AtHome(db, t)) && (t == AuditEvents ==> CredentialsKnown(db)))
      {
        TableConvertible(db, t, upgrading);
      }
      TargetsFollow(db, upgrading);
      NoRows(db, upgrading, CorrectionGuards);
      NoRows(db, upgrading, LifecycleGuards);
      if Convertible(db, upgrading) {
        forall t: TableName ensures CallersKnown(db, t) && (!upgrading ==> AtHome(db, t)) {
          match t
          case AuditEvents =>
          case IdempotencyRecords =>
          case Corrections =>
          case LifecycleEvents =>
          case CorrectionGuards =>
          case LifecycleGuards =>
        }
        assert CredentialsKnown(db) && ForeignKeys(db);
      }
    }
  }

  lemma NoRows(db: HomeDb, upgrading: bool, t: TableName)
    requires FitsSchema(db) && t in TABLES
    ensures RowsIn(db, t) == [] ==> CallersKnown(db, t) && AtHome(db, t)
  {
  }

  lemma TargetsFollow(db: HomeDb, upgrading: bool)
    requires FitsSchema(db) && db.upgraded == !upgrading && forall t: TableName :: t in TABLES
    ensures Convertible(db, upgrading) ==> TargetsKnown(db)
  {
    if Convertible(db, upgrading) && db.upgraded {
      forall t, i | t in {AuditEvents, IdempotencyRecords} && 0 <= i < |RowsIn(db, t)| ensures RowsIn(db, t)[i].library in db.libraries {
        var row := db.rows[t][i];
        assert (row.caller, row.library) in db.callers;
      }
    }
  }

  // A rebuild goes through exactly when everything it asks for holds; it then gives every row its own Library
  // as home, or takes the home column away, and changes nothing else.
  lemma RebuildGoesThrough(db: HomeDb, upgrading: bool)
    requires FitsSchema(db)
    ensures Rebuild(db, upgrading).Ok? <==> Convertible(db, upgrading)
    ensures Rebuild(db, upgrading).Ok? ==>
              var after := Rebuild(db, upgrading).value;
              && after == db.(upgraded := upgrading, rows := after.rows) && after.rows.Keys == db.rows.Keys
              && forall t :: t in db.rows ==>
                   && |after.rows[t]| == |db.rows[t]|
                   && forall i :: 0 <= i < |db.rows[t]| ==>
                        after.rows[t][i] == db.rows[t][i].(home := if upgrading then Some(db.rows[t][i].library) else None)
  {
    PreflightIs(db, upgrading);
    hide Preflight, Convertible;
    if Preflight(db, upgrading).None? {
      if upgrading {
        UpgradeKeysHold(db);
      } else {
        DowngradeKeysHold(db);
      }
      hide ForeignKeys;
      assert Rebuild(db, upgrading).Ok?;
    }
  }

  // After a downgrade the same actors are looked up in the same Libraries.
  lemma DowngradeKeysHold(db: HomeDb)
    requires FitsSchema(db) && Preflight(db, false).None?
    ensures ForeignKeys(ConvertedDb(db, false))
  {
    PreflightFacts(db, false);
    var u := ConvertedDb(db, false);
    forall t | t in TABLES ensures CallersKnown(u, t) {
      SameCallers(db, false, t);
    }
    SameCredentials(db, false);
    hide Preflight, CallersKnown, CredentialsKnown, FitsSchema;
  }

  // One rebuild and then the other is the identity on rows, in both directions: nothing is lost, and
  // the second is never refused.
  lemma ThereAndBack(db: HomeDb, upgrading: bool)
    requires FitsSchema(db) && Rebuild(db, upgrading).Ok?
    ensures FitsSchema(Rebuild(db, upgrading).value) && Rebuild(Rebuild(db, upgrading).value, !upgrading) == Ok(db)
  {
    var u := ConvertedDb(db, upgrading);
    PreflightFacts(db, upgrading);
    ConvertedFits(db, upgrading);
    PreflightFacts(u, !upgrading);
    ConvertedBack(db, upgrading);
    SameGuards(db, upgrading);
    forall t | t in TABLES ensures upgrading ==> AtHome(u, t) {
      SameCallers(db, upgrading, t);
    }
    hide FitsSchema, ForeignKeys, AtHome, ConvertedDb, Preflight;
  }

  // A downgrade is accepted exactly on the databases some upgrade could have produced.
  lemma DowngradeIffUpgraded(u: HomeDb)
    requires FitsSchema(u)
    ensures Rebuild(u, false).Ok? <==> exists db :: FitsSchema(db) && Rebuild(db, true) == Ok(u)
  {
    if Rebuild(u, false).Ok? {
      ThereAndBack(u, false);
      var db := Rebuild(u, false).value;
      assert FitsSchema(db) && Rebuild(db, true) == Ok(u);
    }
    if db :| FitsSchema(db) && Rebuild(db, true) == Ok(u) {
      ThereAndBack(db, true);
    }
  }

  // The upgrade's last foreign key check never fails after its first one: every home is the row's own
  // Library, which its caller already required to exist.
  lemma UpgradeKeysHold(db: HomeDb)
    requires FitsSchema(db) && Preflight(db, true).None?
    ensures Rebuild(db, true).Ok?
  {
    PreflightFacts(db, true);
    var u := ConvertedDb(db, true);
    ConvertedFits(db, true);
    forall t | t in TABLES ensures CallersKnown(u, t) {
      SameCallers(db, true, t);
    }
    SameCredentials(db, true);
    assert TABLES[0] == AuditEvents && TABLES[1] == IdempotencyRecords;
    assert TargetsKnown(u) by {
      TargetsAfter(db, AuditEvents);
      TargetsAfter(db, IdempotencyRecords);
    }
    hide Preflight, CallersKnown, CredentialsKnown, TargetsKnown, FitsSchema;
  }

  lemma TargetsAfter(db: HomeDb, t: TableName)
    requires FitsSchema(db) && !db.upgraded && t in TABLES && CallersKnown(db, t) && forall c :: c in db.callers ==> c.1 in db.libraries
    ensures forall i :: 0 <= i < |RowsIn(ConvertedDb(db, true), t)| ==> RowsIn(ConvertedDb(db, true), t)[i].library in db.libraries
  {
    ConvertedIn(db, true, t);
    forall i | 0 <= i < |RowsIn(db, t)| ensures RowsIn(db, t)[i].library in db.libraries {
      assert CallerKnown(db, RowsIn(db, t)[i]);
    }
  }

  // ---- the rebuild, table by table ----

  class HomeTables {
    var db: HomeDb
    var shadow: map<TableName, seq<Row>>

    constructor (db: HomeDb)
      ensures this.db == db && shadow == map[]
    {
      this.db, shadow := db, map[];
    }

    // Copies every table aside, drops and recreates it with its new columns, and copies it back.
    method Run(upgrading: bool) returns (refusal: Option<Refusal>)
      requires shadow == map[] && FitsSchema(db)
      modifies this
      ensures shadow == map[]
      ensures match Rebuild(old(db), upgrading)
              case Ok(after) => refusal.None? && db == after
              case Err(why) => refusal == Some(why) && db == old(db)
    {
      hide ForeignKeys, Preflight, ConvertedRows, FitsSchema;
      var before := db;
      refusal := Preflight(db, upgrading);
      if refusal.Some? {
        return;
      }
      CopyAside();
      db := db.(rows := map[], upgraded := upgrading);
      Recreate(upgrading);
      assert db.rows == ConvertedDb(before, upgrading).rows;
      shadow := map[];
      if !ForeignKeys(db) {
        db := before;
        refusal := Some(InconsistentKeys);
      }
    }

    method CopyAside()
      requires shadow == map[]
      modifies this`shadow
      ensures shadow == map t | t in TABLES :: RowsIn(db, t)
    {
      for i := 0 to |CREATE_ORDER|
        invariant shadow == map t | t in CREATE_ORDER[..i] :: RowsIn(db, t)
      {
        assert CREATE_ORDER[..i + 1] == CREATE_ORDER[..i] + [CREATE_ORDER[i]];
        shadow := shadow[CREATE_ORDER[i] := RowsIn(db, CREATE_ORDER[i])];
      }
      SameTables();
      assert CREATE_ORDER[..|CREATE_ORDER|] == CREATE_ORDER;
    }

    method Recreate(upgrading: bool)
      requires db.rows == map[] && forall t :: t in TABLES ==> t in shadow
      modifies this`db
      ensures db == old(db).(rows := map t | t in TABLES :: ConvertedRows(if t in shadow then shadow[t] else [], upgrading))
    {
      hide ConvertedRows, TABLES, FitsSchema;
      SameTables();
      for i := 0 to |CREATE_ORDER|
        invariant db == old(db).(rows := db.rows)
        invariant db.rows == map t | t in CREATE_ORDER[..i] :: ConvertedRows(if t in shadow then shadow[t] else [], upgrading)
      {
        assert CREATE_ORDER[..i + 1] == CREATE_ORDER[..i] + [CREATE_ORDER[i]];
        assert CREATE_ORDER[i] in CREATE_ORDER;
        db := db.(rows := db.rows[CREATE_ORDER[i] := ConvertedRows(shadow[CREATE_ORDER[i]], upgrading)]);
      }
      assert CREATE_ORDER[..|CREATE_ORDER|] == CREATE_ORDER;
    }
  }

  lemma SameTables()
    ensures forall t :: t in CREATE_ORDER <==> t in TABLES
  {
    forall t ensures t in CREATE_ORDER && t in TABLES {
      match t
      case AuditEvents => assert CREATE_ORDER[0] == t && TABLES[0] == t;
      case IdempotencyRecords => assert CREATE_ORDER[1] == t && TABLES[1] == t;
      case Corrections => assert CREATE_ORDER[2] == t && TABLES[2] == t;
      case LifecycleEvents => assert CREATE_ORDER[3] == t && TABLES[4] == t;
      case CorrectionGuards => assert CREATE_ORDER[4] == t && TABLES[3] == t;
      case LifecycleGuards => assert CREATE_ORDER[5] == t && TABLES[5] == t;
    }
  }

  // ---- 0019: lifecycle events of a master ----

  // A lifecycle event with the actor columns of either schema.
  datatype LifeRow = LifeRow(home: Option<Id>, caller: Option<Id>, master: Option<Id>, rest: Id)

  datatype LifeDb = LifeDb(
    upgraded: bool, schemaAsExpected: bool, callers: set<(Id, Id)>, masterAudits: set<Id>,
    events: seq<LifeRow>, guards: seq<LifeRow>)

  predicate ByCaller(row: LifeRow) { row.home.Some? && row.caller.Some? && row.master.None? }
  predicate ByMaster(row: LifeRow) { row.home.None? && row.caller.None? && row.master.Some? }

  // NOT NULL columns before; the actor-kind CHECK after.
  predicate LifeFits(db: LifeDb) {
    forall i :: 0 <= i < |db.events| ==> ByCaller(db.events[i]) || (db.upgraded && ByMaster(db.events[i]))
  }

  predicate LifeKey(db: LifeDb, row: LifeRow) {
    && (row.caller.Some? && row.home.Some? ==> (row.caller.value, row.home.value) in db.callers)
    && (row.master.Some? ==> row.master.value in db.masterAudits)
  }

  predicate LifeKeys(db: LifeDb) { forall i :: 0 <= i < |db.events| ==> LifeKey(db, db.events[i]) }

  predicate AnyMaster(db: LifeDb) { exists i :: 0 <= i < |db.events| && db.events[i].master.Some? }
  predicate AnyWithoutCaller(db: LifeDb) { exists i :: 0 <= i < |db.events| && (db.events[i].caller.None? || db.events[i].home.None?) }

  function LifePreflight(db: LifeDb, upgrading: bool): Option<Refusal> {
    if db.upgraded == upgrading then Some(UnexpectedRevision)
    else if db.guards != [] then Some(PendingGuard)
    else if !LifeKeys(db) then Some(InconsistentKeys)
    else if !upgrading && AnyMaster(db) then Some(MasterAttributed)
    else if !upgrading && AnyWithoutCaller(db) then Some(WithoutCaller)
    else if !db.schemaAsExpected then Some(UnexpectedSchema)
    else None
  }

  // INSERT INTO events (columns, master) SELECT columns, NULL; the downgrade selects every column but that.
  function LifeConverted(row: LifeRow): LifeRow { row.(master := None) }

  function LifeRebuild(db: LifeDb, upgrading: bool): Result<LifeDb, Refusal> {
    if LifePreflight(db, upgrading).Some? then Err(LifePreflight(db, upgrading).value)
    else Ok(db.(upgraded := upgrading, events := seq(|db.events|, i requires 0 <= i < |db.events| => LifeConverted(db.events[i]))))
  }

  // Every event was made by a known Caller or master, and before a downgrade by a Caller.
  predicate LifeConvertible(db: LifeDb, upgrading: bool) {
    && db.upgraded != upgrading && db.schemaAsExpected && db.guards == []
    && forall i :: 0 <= i < |db.events| ==>
         var row := db.events[i];
         row.home.Some? && row.caller.Some? && row.master == None && (row.caller.value, row.home.value) in db.callers
  }

  // The rebuild of the lifecycle events goes through exactly then, and changes no event.
  lemma LifeGoesThrough(db: LifeDb, upgrading: bool)
    requires LifeFits(db)
    ensures LifeRebuild(db, upgrading).Ok? <==> LifeConvertible(db, upgrading)
    ensures LifeConvertible(db, upgrading) ==> LifeRebuild(db, upgrading) == Ok(db.(upgraded := upgrading))
  {
    if LifeRebuild(db, upgrading).Ok? {
      forall i | 0 <= i < |db.events| ensures LifeKey(db, db.events[i]) && ByCaller(db.events[i]) {
        assert !upgrading ==> !AnyMaster(db) && !AnyWithoutCaller(db);
      }
    }
    if LifeConvertible(db, upgrading) {
      forall i | 0 <= i < |db.events| ensures LifeConverted(db.events[i]) == db.events[i] {
      }
      assert LifePreflight(db, upgrading).None?;
      assert LifeRebuild(db, upgrading).value.events == db.events;
    }
  }

  // Nothing is lost either way.
  lemma LifeThereAndBack(db: LifeDb, upgrading: bool)
    requires LifeFits(db) && LifeRebuild(db, upgrading).Ok?
    ensures LifeFits(LifeRebuild(db, upgrading).value) && LifeRebuild(LifeRebuild(db, upgrading).value, !upgrading) == Ok(db)
  {
    var u := LifeRebuild(db, upgrading).value;
    forall i | 0 <= i < |db.events| ensures u.events[i] == db.events[i] && ByCaller(db.events[i]) {
      assert !upgrading ==> !AnyMaster(db) && !AnyWithoutCaller(db);
    }
    assert u.events == db.events;
    assert !AnyMaster(u) && !AnyWithoutCaller(u);
    forall i | 0 <= i < |u.events| ensures LifeKey(u, u.events[i]) {
      assert LifeKey(db, db.events[i]);
    }
    assert u.(upgraded := !upgrading) == db;
  }

  // The downgrade is accepted exactly on what some upgrade could have produced: no event of a master.
  lemma LifeDowngradeIffUpgraded(u: LifeDb)
    requires LifeFits(u)
    ensures LifeRebuild(u, false).Ok? <==> exists db :: LifeFits(db) && LifeRebuild(db, true) == Ok(u)
    ensures LifeRebuild(u, false).Ok?
       <==> u.upgraded && u.guards == [] && u.schemaAsExpected && LifeKeys(u) && forall i :: 0 <= i < |u.events| ==> ByCaller(u.events[i])
  {
    if LifeRebuild(u, false).Ok? {
      LifeThereAndBack(u, false);
      var db := LifeRebuild(u, false).value;
      assert LifeFits(db) && LifeRebuild(db, true) == Ok(u);
    }
    if db :| LifeFits(db) && LifeRebuild(db, true) == Ok(u) {
      LifeThereAndBack(db, true);
    }
  }

  method RebuildLifecycle(db: LifeDb, upgrading: bool) returns (r: Result<LifeDb, Refusal>)
    ensures r == LifeRebuild(db, upgrading)
  {
    var refusal := LifePreflight(db, upgrading);
    if refusal.Some? {
      return Err(refusal.value);
    }
    var shadow, events := db.events, [];
    for i := 0 to |shadow|
      invariant |events| == i && forall k :: 0 <= k < i ==> events[k] == LifeConverted(shadow[k])
    {
      events := events + [LifeConverted(shadow[i])];
    }
    assert events == seq(|db.events|, i requires 0 <= i < |db.events| => LifeConverted(db.events[i]));
    r := Ok(db.(upgraded := upgrading, events := events));
  }
}
