// The texts the migrations replace in table declarations: none of them overlaps itself, so whatever
// stands around them, a downgrade that succeeds returns the original declaration.
module SchemaTexts {
  import opened Common
  import opened SchemaRewrite

  // ---- long texts, piece by piece ----

  // A text without the pair of characters, and the characters at its ends.
  predicate Piece(s: string, a: char, b: char, first: char, last: char) {
    && s != "" && s[0] == first && s[|s| - 1] == last
    && forall k :: 0 <= k < |s| - 1 ==> s[k] != a || s[k + 1] != b
  }

  lemma Both(x: string, y: string, a: char, b: char, first: char, mid: char, next: char, last: char)
    requires Piece(x, a, b, first, mid) && Piece(y, a, b, next, last) && (mid != a || next != b)
    ensures Piece(x + y, a, b, first, last)
  {
  }

  // A text that starts with a pair it does not have again, and ends in another character than its first.
  lemma StartsOnce(rest: string, a: char, b: char, last: char)
    requires Piece(rest, a, b, b, last) && last != a
    ensures BorderFree([a] + rest)
  {
    var p := [a] + rest;
    forall k | 0 < k < |p| - 1 ensures p[k] != p[0] || p[k + 1] != p[1] {
      assert p[k] == rest[k - 1] && p[k + 1] == rest[k];
    }
    UniqueStart(p);
  }

  // A text that ends with a line break and a parenthesis it does not have together before.
  lemma EndsOnce(start: string, first: char, last: char)
    requires Piece(start, '\n', ')', first, last) && first != ')'
    ensures BorderFree(start + END)
  {
    var p := start + END;
    forall k | 0 < k < |p| ensures p[..|p| - k] != p[k..] {
      var n := |p| - k;
      assert p[..n][n - 1] == p[n - 1] && p[k..][n - 1] == p[|p| - 1];
      if n > 1 {
        assert p[..n][n - 2] == p[n - 2] && p[k..][n - 2] == p[|p| - 2];
        assert n - 1 < |start| ==> p[n - 1] == start[n - 1] && p[n - 2] == start[n - 2];
      }
    }
  }

  const END := "\n)"

  lemma EndFree()
    ensures BorderFree(END)
  {
    assert END[..1] == "\n" && END[1..] == ")";
  }

  // ---- 0017: the home Library of an actor ----

  // Each text is written in pieces short enough to compare character by character.

  const COLUMN := "\t" + ("library_id VARCHAR(32) " + "NOT NULL, \n")
  const WITH_HOME := "\t" + ("library_id VARCHAR(32) " + "NOT NULL, \n\tactor_home_" + "library_id VARCHAR(32) " + "NOT NULL, \n")
  const AUDIT_KEY := "F" + ("OREIGN KEY(actor_" + "credential_id, " + "actor_caller_id, " + "library_id)")
  const AUDIT_HOME_KEY := "F" + ("OREIGN KEY(actor_" + "credential_id, " + "actor_caller_id, " + "actor_home_library_id)")
  const RECORD_KEY := "F" + ("OREIGN KEY(caller_id, " + "library_id) REFERENCES " + "auth_callers")
  const RECORD_HOME_KEY := "F" + ("OREIGN KEY(caller_id, " + "actor_home_library_id) " + "REFERENCES auth_callers")
  const EVENT_KEY := "F" + ("OREIGN KEY(actor_caller_" + "id, library_id) " + "REFERENCES auth_callers")
  const EVENT_HOME_KEY := "F" + ("OREIGN KEY(actor_caller_" + "id, actor_home_library_" + "id) REFERENCES " + "auth_callers")
  const AUDIT_TARGET := (", \n\tCONSTRAINT " + "fk_auth_audit_events_" + "target_library FOREIGN " + "KEY(library_id) " + "REFERENCES libraries (" + "id) ON DELETE RESTRICT") + END
  const RECORD_TARGET := (", \n\tCONSTRAINT " + "fk_idempotency_records_" + "target_library FOREIGN " + "KEY(library_id) " + "REFERENCES libraries (" + "id) ON DELETE RESTRICT") + END

  // The three kinds of rebuilt tables.
  datatype HomeTable = AuditEvents | IdempotencyRecords | CorrectionOrLifecycle

  function HomePairs(t: HomeTable): seq<Pair> {
    match t
    case AuditEvents => [Pair(COLUMN, WITH_HOME, 1), Pair(AUDIT_KEY, AUDIT_HOME_KEY, 1), Pair(END, AUDIT_TARGET, 1)]
    case IdempotencyRecords => [Pair(COLUMN, WITH_HOME, 1), Pair(RECORD_KEY, RECORD_HOME_KEY, 1), Pair(END, RECORD_TARGET, 1)]
    case CorrectionOrLifecycle => [Pair(COLUMN, WITH_HOME, 1), Pair(EVENT_KEY, EVENT_HOME_KEY, 1)]
  }

  lemma ColumnFree()
    ensures BorderFree(COLUMN)
  {
    var p0 := "library_id VARCHAR(32) ";
    var p1 := "NOT NULL, \n";
    assert Piece(p0, '\t', 'l', 'l', ' ');
    assert Piece(p1, '\t', 'l', 'N', '\n');
    hide Piece, BorderFree;
    Both(p0, p1, '\t', 'l', 'l', ' ', 'N', '\n');
    StartsOnce(p0 + p1, '\t', 'l', '\n');
  }

  lemma WithHomeFree()
    ensures BorderFree(WITH_HOME)
  {
    var p0 := "library_id VARCHAR(32) ";
    var p1 := "NOT NULL, \n\tactor_home_";
    var p2 := "library_id VARCHAR(32) ";
    var p3 := "NOT NULL, \n";
    assert Piece(p0, '\t', 'l', 'l', ' ');
    assert Piece(p1, '\t', 'l', 'N', '_');
    assert Piece(p2, '\t', 'l', 'l', ' ');
    assert Piece(p3, '\t', 'l', 'N', '\n');
    hide Piece, BorderFree;
    Both(p0, p1, '\t', 'l', 'l', ' ', 'N', '_');
    Both(p0 + p1, p2, '\t', 'l', 'l', '_', 'l', ' ');
    Both(p0 + p1 + p2, p3, '\t', 'l', 'l', ' ', 'N', '\n');
    StartsOnce(p0 + p1 + p2 + p3, '\t', 'l', '\n');
  }

  lemma AuditKeyFree()
    ensures BorderFree(AUDIT_KEY)
  {
    var p0 := "OREIGN KEY(actor_";
    var p1 := "credential_id, ";
    var p2 := "actor_caller_id, ";
    var p3 := "library_id)";
    assert Piece(p0, 'F', 'O', 'O', '_');
    assert Piece(p1, 'F', 'O', 'c', ' ');
    assert Piece(p2, 'F', 'O', 'a', ' ');
    assert Piece(p3, 'F', 'O', 'l', ')');
    hide Piece, BorderFree;
    Both(p0, p1, 'F', 'O', 'O', '_', 'c', ' ');
    Both(p0 + p1, p2, 'F', 'O', 'O', ' ', 'a', ' ');
    Both(p0 + p1 + p2, p3, 'F', 'O', 'O', ' ', 'l', ')');
    StartsOnce(p0 + p1 + p2 + p3, 'F', 'O', ')');
  }

  lemma AuditHomeKeyFree()
    ensures BorderFree(AUDIT_HOME_KEY)
  {
    var p0 := "OREIGN KEY(actor_";
    var p1 := "credential_id, ";
    var p2 := "actor_caller_id, ";
    var p3 := "actor_home_library_id)";
    assert Piece(p0, 'F', 'O', 'O', '_');
    assert Piece(p1, 'F', 'O', 'c', ' ');
    assert Piece(p2, 'F', 'O', 'a', ' ');
    assert Piece(p3, 'F', 'O', 'a', ')');
    hide Piece, BorderFree;
    Both(p0, p1, 'F', 'O', 'O', '_', 'c', ' ');
    Both(p0 + p1, p2, 'F', 'O', 'O', ' ', 'a', ' ');
    Both(p0 + p1 + p2, p3, 'F', 'O', 'O', ' ', 'a', ')');
    StartsOnce(p0 + p1 + p2 + p3, 'F', 'O', ')');
  }

  lemma RecordKeyFree()
    ensures BorderFree(RECORD_KEY)
  {
    var p0 := "OREIGN KEY(caller_id, ";
    var p1 := "library_id) REFERENCES ";
    var p2 := "auth_callers";
    assert Piece(p0, 'F', 'O', 'O', ' ');
    assert Piece(p1, 'F', 'O', 'l', ' ');
    assert Piece(p2, 'F', 'O', 'a', 's');
    hide Piece, BorderFree;
    Both(p0, p1, 'F', 'O', 'O', ' ', 'l', ' ');
    Both(p0 + p1, p2, 'F', 'O', 'O', ' ', 'a', 's');
    StartsOnce(p0 + p1 + p2, 'F', 'O', 's');
  }

  lemma RecordHomeKeyFree()
    ensures BorderFree(RECORD_HOME_KEY)
  {
    var p0 := "OREIGN KEY(caller_id, ";
    var p1 := "actor_home_library_id) ";
    var p2 := "REFERENCES auth_callers";
    assert Piece(p0, 'F', 'O', 'O', ' ');
    assert Piece(p1, 'F', 'O', 'a', ' ');
    assert Piece(p2, 'F', 'O', 'R', 's');
    hide Piece, BorderFree;
    Both(p0, p1, 'F', 'O', 'O', ' ', 'a', ' ');
    Both(p0 + p1, p2, 'F', 'O', 'O', ' ', 'R', 's');
    StartsOnce(p0 + p1 + p2, 'F', 'O', 's');
  }

  lemma EventKeyFree()
    ensures BorderFree(EVENT_KEY)
  {
    var p0 := "OREIGN KEY(actor_caller_";
    var p1 := "id, library_id) ";
    var p2 := "REFERENCES auth_callers";
    assert Piece(p0, 'F', 'O', 'O', '_');
    assert Piece(p1, 'F', 'O', 'i', ' ');
    assert Piece(p2, 'F', 'O', 'R', 's');
    hide Piece, BorderFree;
    Both(p0, p1, 'F', 'O', 'O', '_', 'i', ' ');
    Both(p0 + p1, p2, 'F', 'O', 'O', ' ', 'R', 's');
    StartsOnce(p0 + p1 + p2, 'F', 'O', 's');
  }

  lemma EventHomeKeyFree()
    ensures BorderFree(EVENT_HOME_KEY)
  {
    var p0 := "OREIGN KEY(actor_caller_";
    var p1 := "id, actor_home_library_";
    var p2 := "id) REFERENCES ";
    var p3 := "auth_callers";
    assert Piece(p0, 'F', 'O', 'O', '_');
    assert Piece(p1, 'F', 'O', 'i', '_');
    assert Piece(p2, 'F', 'O', 'i', ' ');
    assert Piece(p3, 'F', 'O', 'a', 's');
    hide Piece, BorderFree;
    Both(p0, p1, 'F', 'O', 'O', '_', 'i', '_');
    Both(p0 + p1, p2, 'F', 'O', 'O', '_', 'i', ' ');
    Both(p0 + p1 + p2, p3, 'F', 'O', 'O', ' ', 'a', 's');
    StartsOnce(p0 + p1 + p2 + p3, 'F', 'O', 's');
  }

  lemma AuditTargetFree()
    ensures BorderFree(AUDIT_TARGET)
  {
    var p0 := ", \n\tCONSTRAINT ";
    var p1 := "fk_auth_audit_events_";
    var p2 := "target_library FOREIGN ";
    var p3 := "KEY(library_id) ";
    var p4 := "REFERENCES libraries (";
    var p5 := "id) ON DELETE RESTRICT";
    assert Piece(p0, '\n', ')', ',', ' ');
    assert Piece(p1, '\n', ')', 'f', '_');
    assert Piece(p2, '\n', ')', 't', ' ');
    assert Piece(p3, '\n', ')', 'K', ' ');
    assert Piece(p4, '\n', ')', 'R', '(');
    assert Piece(p5, '\n', ')', 'i', 'T');
    hide Piece, BorderFree;
    Both(p0, p1, '\n', ')', ',', ' ', 'f', '_');
    Both(p0 + p1, p2, '\n', ')', ',', '_', 't', ' ');
    Both(p0 + p1 + p2, p3, '\n', ')', ',', ' ', 'K', ' ');
    Both(p0 + p1 + p2 + p3, p4, '\n', ')', ',', ' ', 'R', '(');
    Both(p0 + p1 + p2 + p3 + p4, p5, '\n', ')', ',', '(', 'i', 'T');
    EndsOnce(p0 + p1 + p2 + p3 + p4 + p5, ',', 'T');
  }

  lemma RecordTargetFree()
    ensures BorderFree(RECORD_TARGET)
  {
    var p0 := ", \n\tCONSTRAINT ";
    var p1 := "fk_idempotency_records_";
    var p2 := "target_library FOREIGN ";
    var p3 := "KEY(library_id) ";
    var p4 := "REFERENCES libraries (";
    var p5 := "id) ON DELETE RESTRICT";
    assert Piece(p0, '\n', ')', ',', ' ');
    assert Piece(p1, '\n', ')', 'f', '_');
    assert Piece(p2, '\n', ')', 't', ' ');
    assert Piece(p3, '\n', ')', 'K', ' ');
    assert Piece(p4, '\n', ')', 'R', '(');
    assert Piece(p5, '\n', ')', 'i', 'T');
    hide Piece, BorderFree;
    Both(p0, p1, '\n', ')', ',', ' ', 'f', '_');
    Both(p0 + p1, p2, '\n', ')', ',', '_', 't', ' ');
    Both(p0 + p1 + p2, p3, '\n', ')', ',', ' ', 'K', ' ');
    Both(p0 + p1 + p2 + p3, p4, '\n', ')', ',', ' ', 'R', '(');
    Both(p0 + p1 + p2 + p3 + p4, p5, '\n', ')', ',', '(', 'i', 'T');
    EndsOnce(p0 + p1 + p2 + p3 + p4 + p5, ',', 'T');
  }

  lemma HomeTextsBorderFree(t: HomeTable)
    ensures AllBorderFree(Texts(HomePairs(t), false)) && AllBorderFree(Texts(HomePairs(t), true))
  {
    hide BorderFree, COLUMN, WITH_HOME, AUDIT_KEY, AUDIT_HOME_KEY, RECORD_KEY, RECORD_HOME_KEY, EVENT_KEY, EVENT_HOME_KEY;
    hide END, AUDIT_TARGET, RECORD_TARGET;
    ColumnFree();
    WithHomeFree();
    AuditKeyFree();
    AuditHomeKeyFree();
    RecordKeyFree();
    RecordHomeKeyFree();
    EventKeyFree();
    EventHomeKeyFree();
    EndFree();
    AuditTargetFree();
    RecordTargetFree();
  }

  // Every declaration with these texts at disjoint places comes back from upgrade and downgrade, up to
  // the quotes of its table name.
  lemma HomeTableRoundTrip(t: HomeTable, table: string, source: string, parts: seq<Part>)
    requires Unquote(source, table).Some? && Unquote(source, table).value == Render(parts, Texts(HomePairs(t), false))
    requires parts != [] && parts[0].Fixed? && Plain(table) <= parts[0].text && Sited(parts, HomePairs(t))
    requires TableSql(table, source, HomePairs(t), true).Some?
    requires TableSql(table, TableSql(table, source, HomePairs(t), true).value, HomePairs(t), false).Some?
    ensures TableSql(table, TableSql(table, source, HomePairs(t), true).value, HomePairs(t), false) == Unquote(source, table)
  {
    HomeTextsBorderFree(t);
    TableRoundTrip(table, source, parts, HomePairs(t));
  }

  // ---- 0029: moves by Callers ----

  const MASTER_COLUMN := "\t" + ("master_audit_event_id " + "VARCHAR(32) NOT NULL, \n")
  const MASTER_OR_CALLER := "\t" + ("master_audit_event_id " + "VARCHAR(32), " + "\n\tcaller_audit_event_id " + "VARCHAR(32), \n")
  const CALLER_AUDIT := (", \n\tFOREIGN KEY(" + "caller_audit_event_id) " + "REFERENCES auth_audit_" + "events (id) ON DELETE " + "RESTRICT, \n\tUNIQUE (" + "caller_audit_event_id), " + "\n\tCHECK (")
  const ONE_ACTOR := ("(master_audit_event_id " + "IS NOT NULL AND " + "caller_audit_event_id " + "IS NULL) OR (" + "master_audit_event_id " + "IS NULL AND " + "caller_audit_event_id " + "IS NOT NULL))")
  const ACTOR_CONSTRAINTS := CALLER_AUDIT + ONE_ACTOR + END

  const MOVE_PAIRS := [Pair(MASTER_COLUMN, MASTER_OR_CALLER, 1), Pair(END, ACTOR_CONSTRAINTS, 1)]

  lemma MasterColumnFree()
    ensures BorderFree(MASTER_COLUMN)
  {
    var p0 := "master_audit_event_id ";
    var p1 := "VARCHAR(32) NOT NULL, \n";
    assert Piece(p0, '\t', 'm', 'm', ' ');
    assert Piece(p1, '\t', 'm', 'V', '\n');
    hide Piece, BorderFree;
    Both(p0, p1, '\t', 'm', 'm', ' ', 'V', '\n');
    StartsOnce(p0 + p1, '\t', 'm', '\n');
  }

  lemma MasterOrCallerFree()
    ensures BorderFree(MASTER_OR_CALLER)
  {
    var p0 := "master_audit_event_id ";
    var p1 := "VARCHAR(32), ";
    var p2 := "\n\tcaller_audit_event_id ";
    var p3 := "VARCHAR(32), \n";
    assert Piece(p0, '\t', 'm', 'm', ' ');
    assert Piece(p1, '\t', 'm', 'V', ' ');
    assert Piece(p2, '\t', 'm', '\n', ' ');
    assert Piece(p3, '\t', 'm', 'V', '\n');
    hide Piece, BorderFree;
    Both(p0, p1, '\t', 'm', 'm', ' ', 'V', ' ');
    Both(p0 + p1, p2, '\t', 'm', 'm', ' ', '\n', ' ');
    Both(p0 + p1 + p2, p3, '\t', 'm', 'm', ' ', 'V', '\n');
    StartsOnce(p0 + p1 + p2 + p3, '\t', 'm', '\n');
  }

  lemma CallerAudit()
    ensures Piece(CALLER_AUDIT, '\n', ')', ',', '(')
  {
    var p0 := ", \n\tFOREIGN KEY(";
    var p1 := "caller_audit_event_id) ";
    var p2 := "REFERENCES auth_audit_";
    var p3 := "events (id) ON DELETE ";
    var p4 := "RESTRICT, \n\tUNIQUE (";
    var p5 := "caller_audit_event_id), ";
    var p6 := "\n\tCHECK (";
    assert Piece(p0, '\n', ')', ',', '(');
    assert Piece(p1, '\n', ')', 'c', ' ');
    assert Piece(p2, '\n', ')', 'R', '_');
    assert Piece(p3, '\n', ')', 'e', ' ');
    assert Piece(p4, '\n', ')', 'R', '(');
    assert Piece(p5, '\n', ')', 'c', ' ');
    assert Piece(p6, '\n', ')', '\n', '(');
    hide Piece, BorderFree;
    Both(p0, p1, '\n', ')', ',', '(', 'c', ' ');
    Both(p0 + p1, p2, '\n', ')', ',', ' ', 'R', '_');
    Both(p0 + p1 + p2, p3, '\n', ')', ',', '_', 'e', ' ');
    Both(p0 + p1 + p2 + p3, p4, '\n', ')', ',', ' ', 'R', '(');
    Both(p0 + p1 + p2 + p3 + p4, p5, '\n', ')', ',', '(', 'c', ' ');
    Both(p0 + p1 + p2 + p3 + p4 + p5, p6, '\n', ')', ',', ' ', '\n', '(');
  }

  lemma OneActor()
    ensures Piece(ONE_ACTOR, '\n', ')', '(', ')')
  {
    var p0 := "(master_audit_event_id ";
    var p1 := "IS NOT NULL AND ";
    var p2 := "caller_audit_event_id ";
    var p3 := "IS NULL) OR (";
    var p4 := "master_audit_event_id ";
    var p5 := "IS NULL AND ";
    var p6 := "caller_audit_event_id ";
    var p7 := "IS NOT NULL))";
    assert Piece(p0, '\n', ')', '(', ' ');
    assert Piece(p1, '\n', ')', 'I', ' ');
    assert Piece(p2, '\n', ')', 'c', ' ');
    assert Piece(p3, '\n', ')', 'I', '(');
    assert Piece(p4, '\n', ')', 'm', ' ');
    assert Piece(p5, '\n', ')', 'I', ' ');
    assert Piece(p6, '\n', ')', 'c', ' ');
    assert Piece(p7, '\n', ')', 'I', ')');
    hide Piece, BorderFree;
    Both(p0, p1, '\n', ')', '(', ' ', 'I', ' ');
    Both(p0 + p1, p2, '\n', ')', '(', ' ', 'c', ' ');
    Both(p0 + p1 + p2, p3, '\n', ')', '(', ' ', 'I', '(');
    Both(p0 + p1 + p2 + p3, p4, '\n', ')', '(', '(', 'm', ' ');
    Both(p0 + p1 + p2 + p3 + p4, p5, '\n', ')', '(', ' ', 'I', ' ');
    Both(p0 + p1 + p2 + p3 + p4 + p5, p6, '\n', ')', '(', ' ', 'c', ' ');
    Both(p0 + p1 + p2 + p3 + p4 + p5 + p6, p7, '\n', ')', '(', ' ', 'I', ')');
  }

  lemma ActorConstraintsFree()
    ensures BorderFree(ACTOR_CONSTRAINTS)
  {
    hide Piece, BorderFree, CALLER_AUDIT, ONE_ACTOR;
    CallerAudit();
    OneActor();
    Both(CALLER_AUDIT, ONE_ACTOR, '\n', ')', ',', '(', '(', ')');
    EndsOnce(CALLER_AUDIT + ONE_ACTOR, ',', ')');
  }

  lemma MoveTextsBorderFree()
    ensures AllBorderFree(Texts(MOVE_PAIRS, false)) && AllBorderFree(Texts(MOVE_PAIRS, true))
  {
    hide BorderFree, MASTER_COLUMN, MASTER_OR_CALLER, END, ACTOR_CONSTRAINTS;
    MasterColumnFree();
    MasterOrCallerFree();
    EndFree();
    ActorConstraintsFree();
  }

  // The same for the tables of moves.
  lemma MoveTableRoundTrip(source: string, parts: seq<Part>)
    requires source == Render(parts, Texts(MOVE_PAIRS, false)) && Sited(parts, MOVE_PAIRS)
    requires Rewrite(source, MOVE_PAIRS, true).Some? && Rewrite(Rewrite(source, MOVE_PAIRS, true).value, MOVE_PAIRS, false).Some?
    ensures Rewrite(Rewrite(source, MOVE_PAIRS, true).value, MOVE_PAIRS, false) == Some(source)
  {
    MoveTextsBorderFree();
    SameOrderInverse(source, parts, MOVE_PAIRS);
  }
}
