/** The agent-name registry: issued names are distinct, a numbered name is the least free one
    and appears only when the whole pool is taken, and a restarted registry can always be
    restored from what was persisted. */
module Naming {
  import opened Models
  import Graph
  import Text

  datatype NameRow = NameRow(scale: nat, coordinate: string, japanese: string, english: string, latin: string, likes: string)

  function NameFor(row: NameRow, column: NameColumn): string {
    match column
    case Japanese => row.japanese
    case English => row.english
    case Latin => row.latin
  }

  /** Rows that names may be issued from: not disliked, and not the owner's reserved seat. */
  predicate Usable(row: NameRow) {
    row.likes != "0" && row.japanese != RESERVED_AGENT_NAME && row.coordinate != "\U{51EA}"
  }

  /** The rows that serve a model scale, in file order. */
  function Pool(rows: seq<NameRow>, scale: nat): (pool: seq<NameRow>)
    ensures forall row :: row in pool <==> row in rows && row.scale == scale && Usable(row)
  {
    if rows == [] then []
    else
      var front, last := Pool(rows[..|rows| - 1], scale), rows[|rows| - 1];
      assert rows == rows[..|rows| - 1] + [last];
      if last.scale == scale && Usable(last) then front + [last] else front
  }

  /** A persisted base name still refers to a usable row. */
  predicate Resolves(rows: seq<NameRow>, scale: nat, column: NameColumn, baseName: string) {
    exists i :: 0 <= i < |rows| && rows[i].scale == scale && NameFor(rows[i], column) == baseName && Usable(rows[i])
  }

  /** The name with a suffix; the first one has none. */
  function Numbered(baseName: string, suffix: nat): string {
    if suffix == 1 then baseName else baseName + Text.Decimal(suffix)
  }

  lemma NumberedInjective(baseName: string, m: nat, n: nat)
    requires m >= 1 && n >= 1 && Numbered(baseName, m) == Numbered(baseName, n)
    ensures m == n
  {
    if m != 1 && n != 1 {
      assert Numbered(baseName, m)[|baseName|..] == Text.Decimal(m) && Numbered(baseName, n)[|baseName|..] == Text.Decimal(n);
      Text.DecimalInjective(m, n);
    }
  }

  /** The names with suffixes 1 to `n`. */
  function FirstNames(baseName: string, n: nat): set<string> {
    set k | 1 <= k <= n :: Numbered(baseName, k)
  }

  lemma {:induction false} FirstNamesSize(baseName: string, n: nat)
    ensures |FirstNames(baseName, n)| == n
  {
    if n == 0 {
      assert FirstNames(baseName, 0) == {};
    } else {
      FirstNamesSize(baseName, n - 1);
      assert FirstNames(baseName, n) == FirstNames(baseName, n - 1) + {Numbered(baseName, n)};
      if k :| 1 <= k <= n - 1 && Numbered(baseName, k) == Numbered(baseName, n) {
        NumberedInjective(baseName, k, n);
      }
    }
  }

  // ---- what a registry has issued

  datatype Names = Names(used: set<string>, assignments: map<Id, Assignment>, registrations: map<Id, Registration>)

  const NO_NAMES := Names({}, map[], map[])

  ghost predicate Keyed(n: Names) {
    && (forall k :: k in n.assignments ==> n.assignments[k].assignmentId == k)
    && (forall k :: k in n.registrations ==> n.registrations[k].registrationId == k)
  }

  /** No name is issued twice, to whomever. */
  ghost predicate Distinct(n: Names) {
    && (forall j, k :: j in n.assignments && k in n.assignments && j != k ==> n.assignments[j].agentName != n.assignments[k].agentName)
    && (forall j, k :: j in n.registrations && k in n.registrations && j != k ==> n.registrations[j].agentName != n.registrations[k].agentName)
    && (forall j, k :: j in n.assignments && k in n.registrations ==> n.assignments[j].agentName != n.registrations[k].agentName)
  }

  /** The used names are exactly the issued ones. */
  ghost predicate UsedAreIssued(n: Names) {
    forall name :: name in n.used <==>
      (exists k :: k in n.assignments && n.assignments[k].agentName == name)
      || (exists k :: k in n.registrations && n.registrations[k].agentName == name)
  }

  ghost predicate AllResolve(rows: seq<NameRow>, n: Names) {
    && (forall k :: k in n.assignments ==> Resolves(rows, n.assignments[k].scale, n.assignments[k].column, n.assignments[k].baseName))
    && (forall k :: k in n.registrations ==> Resolves(rows, n.registrations[k].scale, n.registrations[k].column, n.registrations[k].baseName))
  }

  ghost predicate Issued(rows: seq<NameRow>, n: Names) {
    Keyed(n) && Distinct(n) && UsedAreIssued(n) && AllResolve(rows, n)
  }

  function AddAssignment(n: Names, a: Assignment): Names {
    Names(n.used + {a.agentName}, n.assignments[a.assignmentId := a], n.registrations)
  }

  function AddRegistration(n: Names, r: Registration): Names {
    Names(n.used + {r.agentName}, n.assignments, n.registrations[r.registrationId := r])
  }

  lemma AssignmentUsed(n: Names, a: Assignment)
    requires UsedAreIssued(n) && a.assignmentId !in n.assignments
    ensures UsedAreIssued(AddAssignment(n, a))
  {
    var m := AddAssignment(n, a);
    assert m.assignments[a.assignmentId].agentName == a.agentName;
    assert forall k :: k in n.assignments ==> m.assignments[k] == n.assignments[k];
  }

  lemma RegistrationUsed(n: Names, r: Registration)
    requires UsedAreIssued(n) && r.registrationId !in n.registrations
    ensures UsedAreIssued(AddRegistration(n, r))
  {
    var m := AddRegistration(n, r);
    assert m.registrations[r.registrationId].agentName == r.agentName;
    assert forall k :: k in n.registrations ==> m.registrations[k] == n.registrations[k];
  }

  lemma AssignmentDistinct(n: Names, a: Assignment)
    requires Distinct(n) && UsedAreIssued(n) && a.assignmentId !in n.assignments && a.agentName !in n.used
    ensures Distinct(AddAssignment(n, a))
  {
  }

  lemma RegistrationDistinct(n: Names, r: Registration)
    requires Distinct(n) && UsedAreIssued(n) && r.registrationId !in n.registrations && r.agentName !in n.used
    ensures Distinct(AddRegistration(n, r))
  {
  }

  /** Issuing a free name keeps names distinct and equal to the used set. */
  lemma AssignmentIssued(rows: seq<NameRow>, n: Names, a: Assignment)
    requires Issued(rows, n) && a.assignmentId !in n.assignments && a.agentName !in n.used
    requires Resolves(rows, a.scale, a.column, a.baseName)
    ensures Issued(rows, AddAssignment(n, a))
  {
    hide UsedAreIssued, Distinct, Resolves;
    AssignmentUsed(n, a);
    AssignmentDistinct(n, a);
  }

  lemma RegistrationIssued(rows: seq<NameRow>, n: Names, r: Registration)
    requires Issued(rows, n) && r.registrationId !in n.registrations && r.agentName !in n.used
    requires Resolves(rows, r.scale, r.column, r.baseName)
    ensures Issued(rows, AddRegistration(n, r))
  {
    hide UsedAreIssued, Distinct, Resolves;
    RegistrationUsed(n, r);
    RegistrationDistinct(n, r);
  }

  // ---- restoring

  /** Restoring one persisted assignment: a known one is skipped, a collision or a lost row is an error. */
  function RestoreAssignment(rows: seq<NameRow>, n: Names, a: Assignment): Result<Names> {
    if a.assignmentId in n.assignments then
      if n.assignments[a.assignmentId] != a then Err(InvariantViolation) else Ok(n)
    else if a.agentName in n.used || !Resolves(rows, a.scale, a.column, a.baseName) then Err(InvariantViolation)
    else Ok(AddAssignment(n, a))
  }

  function RestoreRegistration(rows: seq<NameRow>, n: Names, r: Registration): Result<Names> {
    if r.registrationId in n.registrations then
      if n.registrations[r.registrationId] != r then Err(InvariantViolation) else Ok(n)
    else if r.agentName in n.used || !Resolves(rows, r.scale, r.column, r.baseName) then Err(InvariantViolation)
    else Ok(AddRegistration(n, r))
  }

  /** Everything that `n` has issued, `m` has issued alike. */
  ghost predicate Within(n: Names, m: Names) {
    && (forall k :: k in n.assignments ==> k in m.assignments && m.assignments[k] == n.assignments[k])
    && (forall k :: k in n.registrations ==> k in m.registrations && m.registrations[k] == n.registrations[k])
  }

  /** A registry holding part of what another one issued accepts any further assignment of that other one. */
  lemma RestoreAccepts(rows: seq<NameRow>, n: Names, m: Names, a: Assignment)
    requires Issued(rows, n) && Issued(rows, m) && Within(n, m)
    requires a.assignmentId in m.assignments && m.assignments[a.assignmentId] == a
    ensures RestoreAssignment(rows, n, a).Ok?
    ensures Issued(rows, RestoreAssignment(rows, n, a).value) && Within(RestoreAssignment(rows, n, a).value, m)
  {
    hide Resolves;
    if a.assignmentId !in n.assignments {
      assert a.agentName !in n.used;
      AssignmentIssued(rows, n, a);
    }
  }

  lemma RestoreRegistrationAccepts(rows: seq<NameRow>, n: Names, m: Names, r: Registration)
    requires Issued(rows, n) && Issued(rows, m) && Within(n, m)
    requires r.registrationId in m.registrations && m.registrations[r.registrationId] == r
    ensures RestoreRegistration(rows, n, r).Ok?
    ensures Issued(rows, RestoreRegistration(rows, n, r).value) && Within(RestoreRegistration(rows, n, r).value, m)
  {
    hide Resolves;
    if r.registrationId !in n.registrations {
      assert r.agentName !in n.used;
      RegistrationIssued(rows, n, r);
    }
  }

  /** Restoring a list stops at the first error and keeps what was restored before it. */
  function RestoreAssignments(rows: seq<NameRow>, n: Names, persisted: seq<Assignment>): (Names, bool) {
    if persisted == [] then (n, true)
    else
      var (m, ok) := RestoreAssignments(rows, n, persisted[..|persisted| - 1]);
      if !ok then (m, false)
      else match RestoreAssignment(rows, m, persisted[|persisted| - 1])
        case Ok(next) => (next, true)
        case Err(_) => (m, false)
  }

  function RestoreRegistrations(rows: seq<NameRow>, n: Names, persisted: seq<Registration>): (Names, bool) {
    if persisted == [] then (n, true)
    else
      var (m, ok) := RestoreRegistrations(rows, n, persisted[..|persisted| - 1]);
      if !ok then (m, false)
      else match RestoreRegistration(rows, m, persisted[|persisted| - 1])
        case Ok(next) => (next, true)
        case Err(_) => (m, false)
  }

  /** Whatever is restored, in whatever state, names stay distinct and equal to the used set. */
  lemma {:induction false} RestoreKeepsIssued(rows: seq<NameRow>, n: Names, persisted: seq<Assignment>)
    requires Issued(rows, n)
    ensures Issued(rows, RestoreAssignments(rows, n, persisted).0)
  {
    hide Issued, Resolves;
    if persisted != [] {
      RestoreKeepsIssued(rows, n, persisted[..|persisted| - 1]);
      var m, a := RestoreAssignments(rows, n, persisted[..|persisted| - 1]).0, persisted[|persisted| - 1];
      if RestoreAssignment(rows, m, a).Ok? && a.assignmentId !in m.assignments {
        AssignmentIssued(rows, m, a);
      }
    }
  }

  lemma {:induction false} RestoreRegistrationsKeepsIssued(rows: seq<NameRow>, n: Names, persisted: seq<Registration>)
    requires Issued(rows, n)
    ensures Issued(rows, RestoreRegistrations(rows, n, persisted).0)
  {
    hide Issued, Resolves;
    if persisted != [] {
      RestoreRegistrationsKeepsIssued(rows, n, persisted[..|persisted| - 1]);
      var m, r := RestoreRegistrations(rows, n, persisted[..|persisted| - 1]).0, persisted[|persisted| - 1];
      if RestoreRegistration(rows, m, r).Ok? && r.registrationId !in m.registrations {
        RegistrationIssued(rows, m, r);
      }
    }
  }

  /** The list holds assignments that `m` has issued. */
  ghost predicate IssuedBy(m: Names, persisted: seq<Assignment>) {
    forall a :: a in persisted ==> a.assignmentId in m.assignments && m.assignments[a.assignmentId] == a
  }

  ghost predicate RegisteredBy(m: Names, persisted: seq<Registration>) {
    forall r :: r in persisted ==> r.registrationId in m.registrations && m.registrations[r.registrationId] == r
  }

  /** Restoring what another registry issued never fails and restores exactly that. */
  lemma {:induction false} RestoreNeverFails(rows: seq<NameRow>, n: Names, m: Names, persisted: seq<Assignment>)
    requires Issued(rows, n) && Issued(rows, m) && Within(n, m) && IssuedBy(m, persisted)
    ensures var (next, ok) := RestoreAssignments(rows, n, persisted);
            && ok && Issued(rows, next) && Within(next, m)
            && next.assignments.Keys == n.assignments.Keys + (set a | a in persisted :: a.assignmentId)
            && next.registrations == n.registrations
  {
    hide Issued, Within, Resolves;
    if persisted != [] {
      var front, last := persisted[..|persisted| - 1], persisted[|persisted| - 1];
      assert persisted == front + [last];
      RestoreNeverFails(rows, n, m, front);
      RestoreAccepts(rows, RestoreAssignments(rows, n, front).0, m, last);
    }
  }

  lemma {:induction false} RestoreRegistrationsNeverFails(rows: seq<NameRow>, n: Names, m: Names, persisted: seq<Registration>)
    requires Issued(rows, n) && Issued(rows, m) && Within(n, m) && RegisteredBy(m, persisted)
    ensures var (next, ok) := RestoreRegistrations(rows, n, persisted);
            && ok && Issued(rows, next) && Within(next, m)
            && next.registrations.Keys == n.registrations.Keys + (set r | r in persisted :: r.registrationId)
            && next.assignments == n.assignments
  {
    hide Issued, Within, Resolves;
    if persisted != [] {
      var front, last := persisted[..|persisted| - 1], persisted[|persisted| - 1];
      assert persisted == front + [last];
      RestoreRegistrationsNeverFails(rows, n, m, front);
      RestoreRegistrationAccepts(rows, RestoreRegistrations(rows, n, front).0, m, last);
    }
  }

  lemma NothingIssued(rows: seq<NameRow>)
    ensures Issued(rows, NO_NAMES)
  {
  }

  /** A restarted process with the same rows restores the persisted part of what its predecessor issued, in any
      listing, and ends with exactly that part. */
  lemma RestartRestores(rows: seq<NameRow>, m: Names, assignments: seq<Assignment>, registrations: seq<Registration>)
    requires Issued(rows, m) && IssuedBy(m, assignments) && RegisteredBy(m, registrations)
    ensures var (first, ok) := RestoreAssignments(rows, NO_NAMES, assignments);
            var (second, okToo) := RestoreRegistrations(rows, first, registrations);
            && ok && okToo && Issued(rows, second) && Within(second, m)
            && second.assignments.Keys == (set a | a in assignments :: a.assignmentId)
            && second.registrations.Keys == (set r | r in registrations :: r.registrationId)
  {
    hide Issued, Resolves;
    NothingIssued(rows);
    RestoreNeverFails(rows, NO_NAMES, m, assignments);
    RestoreRegistrationsNeverFails(rows, RestoreAssignments(rows, NO_NAMES, assignments).0, m, registrations);
  }

  // ---- restoring all that was recorded

  /** The names of these recorded assignments and registrations. */
  function NamesOf(assignments: map<Id, Assignment>, registrations: map<Id, Registration>): Names {
    Names((set k | k in assignments :: assignments[k].agentName) + (set k | k in registrations :: registrations[k].agentName),
          assignments, registrations)
  }

  /** The values of a dictionary in some order. */
  ghost predicate Lists<T(!new)>(listing: seq<T>, m: map<Id, T>) {
    forall x :: x in listing <==> x in m.Values
  }

  /** Part of what a registry issued is itself issued properly. */
  lemma PartIssued(rows: seq<NameRow>, m: Names, assignments: map<Id, Assignment>, registrations: map<Id, Registration>)
    requires Issued(rows, m) && Within(NamesOf(assignments, registrations), m)
    ensures Issued(rows, NamesOf(assignments, registrations))
  {
    hide Resolves;
  }

  /** A restore that succeeds holds everything in the list, and beyond it only what it started with. */
  lemma {:induction false} RestoreHolds(rows: seq<NameRow>, n: Names, persisted: seq<Assignment>)
    requires RestoreAssignments(rows, n, persisted).1
    ensures var next := RestoreAssignments(rows, n, persisted).0;
            && next.registrations == n.registrations
            && (forall a :: a in persisted ==> a.assignmentId in next.assignments && next.assignments[a.assignmentId] == a)
            && (forall k :: k in n.assignments ==> k in next.assignments && next.assignments[k] == n.assignments[k])
            && (forall k :: k in next.assignments && k !in n.assignments ==> next.assignments[k] in persisted && next.assignments[k].assignmentId == k)
  {
    hide Resolves;
    if persisted != [] {
      var front, last := persisted[..|persisted| - 1], persisted[|persisted| - 1];
      assert persisted == front + [last];
      RestoreHolds(rows, n, front);
    }
  }

  lemma {:induction false} RestoreRegistrationsHolds(rows: seq<NameRow>, n: Names, persisted: seq<Registration>)
    requires RestoreRegistrations(rows, n, persisted).1
    ensures var next := RestoreRegistrations(rows, n, persisted).0;
            && next.assignments == n.assignments
            && (forall r :: r in persisted ==> r.registrationId in next.registrations && next.registrations[r.registrationId] == r)
            && (forall k :: k in n.registrations ==> k in next.registrations && next.registrations[k] == n.registrations[k])
            && (forall k :: k in next.registrations && k !in n.registrations ==> next.registrations[k] in persisted && next.registrations[k].registrationId == k)
  {
    hide Resolves;
    if persisted != [] {
      var front, last := persisted[..|persisted| - 1], persisted[|persisted| - 1];
      assert persisted == front + [last];
      RestoreRegistrationsHolds(rows, n, front);
    }
  }

  /** What a restore from scratch that succeeds holds: exactly what was listed, with exactly its names in use. */
  lemma RestoredExactly(rows: seq<NameRow>, assignments: map<Id, Assignment>, registrations: map<Id, Registration>,
      listing: seq<Assignment>, identities: seq<Registration>)
    requires Keyed(NamesOf(assignments, registrations)) && Lists(listing, assignments) && Lists(identities, registrations)
    requires RestoreAssignments(rows, NO_NAMES, listing).1
    requires RestoreRegistrations(rows, RestoreAssignments(rows, NO_NAMES, listing).0, identities).1
    ensures RestoreRegistrations(rows, RestoreAssignments(rows, NO_NAMES, listing).0, identities).0 == NamesOf(assignments, registrations)
    ensures Issued(rows, NamesOf(assignments, registrations))
  {
    hide Resolves, RestoreAssignments, RestoreRegistrations, Distinct, AllResolve;
    var first := RestoreAssignments(rows, NO_NAMES, listing).0;
    var second := RestoreRegistrations(rows, first, identities).0;
    NothingIssued(rows);
    RestoreKeepsIssued(rows, NO_NAMES, listing);
    RestoreRegistrationsKeepsIssued(rows, first, identities);
    RestoreHolds(rows, NO_NAMES, listing);
    RestoreRegistrationsHolds(rows, first, identities);
    assert second.assignments == assignments by { SameAssignments(second.assignments, assignments, listing); }
    assert second.registrations == registrations by { SameRegistrations(second.registrations, registrations, identities); }
    assert second.used == NamesOf(assignments, registrations).used;
  }

  lemma SameAssignments(restored: map<Id, Assignment>, recorded: map<Id, Assignment>, listing: seq<Assignment>)
    requires Lists(listing, recorded) && forall k :: k in recorded ==> recorded[k].assignmentId == k
    requires forall a :: a in listing ==> a.assignmentId in restored && restored[a.assignmentId] == a
    requires forall k :: k in restored ==> restored[k] in listing && restored[k].assignmentId == k
    ensures restored == recorded
  {
    forall k | k in recorded ensures k in restored && restored[k] == recorded[k] {
      assert recorded[k] in listing;
    }
    assert forall k :: k in restored ==> k in recorded;
  }

  lemma SameRegistrations(restored: map<Id, Registration>, recorded: map<Id, Registration>, identities: seq<Registration>)
    requires Lists(identities, recorded) && forall k :: k in recorded ==> recorded[k].registrationId == k
    requires forall r :: r in identities ==> r.registrationId in restored && restored[r.registrationId] == r
    requires forall k :: k in restored ==> restored[k] in identities && restored[k].registrationId == k
    ensures restored == recorded
  {
    forall k | k in recorded ensures k in restored && restored[k] == recorded[k] {
      assert recorded[k] in identities;
    }
    assert forall k :: k in restored ==> k in recorded;
  }

  /** A restart's restore succeeds exactly when the recorded names are distinct and still have their rows; then the
      registry holds exactly what was recorded. */
  lemma RestoreIff(rows: seq<NameRow>, assignments: map<Id, Assignment>, registrations: map<Id, Registration>,
      listing: seq<Assignment>, identities: seq<Registration>)
    requires Keyed(NamesOf(assignments, registrations)) && Lists(listing, assignments) && Lists(identities, registrations)
    ensures var (first, ok) := RestoreAssignments(rows, NO_NAMES, listing);
            var (second, okToo) := RestoreRegistrations(rows, first, identities);
            && (ok && okToo <==> Issued(rows, NamesOf(assignments, registrations)))
            && (ok && okToo ==> second == NamesOf(assignments, registrations))
  {
    hide Resolves, RestoreAssignments, RestoreRegistrations, Issued;
    var m := NamesOf(assignments, registrations);
    if Issued(rows, m) {
      assert IssuedBy(m, listing) && RegisteredBy(m, identities);
      RestartRestores(rows, m, listing, identities);
    }
    if RestoreAssignments(rows, NO_NAMES, listing).1 && RestoreRegistrations(rows, RestoreAssignments(rows, NO_NAMES, listing).0, identities).1 {
      RestoredExactly(rows, assignments, registrations, listing, identities);
    }
  }

  // ---- the next name

  /** The choice of a next name: from the pool; the least free number of its base; numbered only when no base of the pool is free. */
  ghost predicate NextNameOk(pool: seq<NameRow>, column: NameColumn, used: set<string>, baseName: string, suffix: nat, name: string) {
    && suffix >= 1 && name == Numbered(baseName, suffix) && name !in used
    && (forall k :: 1 <= k < suffix ==> Numbered(baseName, k) in used)
    && (exists i :: 0 <= i < |pool| && NameFor(pool[i], column) == baseName)
    && (suffix > 1 ==> forall i :: 0 <= i < |pool| ==> NameFor(pool[i], column) in used)
    && suffix <= |used| + 1
  }

  /** An issued name comes from a row of its scale that is not disliked and not the owner's seat: the row's name in the
      chosen writing, with a number from the second on. */
  lemma NameComesFromRow(rows: seq<NameRow>, scale: nat, column: NameColumn, used: set<string>, baseName: string, suffix: nat, name: string)
    requires NextNameOk(Pool(rows, scale), column, used, baseName, suffix, name)
    ensures name !in used && (suffix == 1 ==> name == baseName) && (suffix > 1 ==> name == baseName + Text.Decimal(suffix))
    ensures exists i :: 0 <= i < |rows| && rows[i].scale == scale
                        && rows[i].likes != "0" && rows[i].japanese != "Nagi" && rows[i].coordinate != "\U{51EA}"
                        && baseName == (match column case Japanese => rows[i].japanese case English => rows[i].english case Latin => rows[i].latin)
  {
    var i :| 0 <= i < |Pool(rows, scale)| && NameFor(Pool(rows, scale)[i], column) == baseName;
    assert Pool(rows, scale)[i] in Pool(rows, scale);
    var j :| 0 <= j < |rows| && rows[j] == Pool(rows, scale)[i];
  }

  /** When restoring a recorded assignment raises: another one is held under its identity, or its name is used or lost. */
  lemma RestoreRaises(rows: seq<NameRow>, n: Names, a: Assignment)
    ensures RestoreAssignment(rows, n, a).Err?
            <==> if a.assignmentId in n.assignments then n.assignments[a.assignmentId] != a
                 else a.agentName in n.used
                      || (forall i :: 0 <= i < |rows| && rows[i].scale == a.scale && NameFor(rows[i], a.column) == a.baseName ==>
                            rows[i].likes == "0" || rows[i].japanese == "Nagi" || rows[i].coordinate == "\U{51EA}")
    ensures RestoreAssignment(rows, n, a).Ok? ==>
              RestoreAssignment(rows, n, a).value == n.(used := n.used + {a.agentName}, assignments := n.assignments[a.assignmentId := a])
              || (a.assignmentId in n.assignments && RestoreAssignment(rows, n, a).value == n)
  {
  }

  lemma RestoreRegistrationRaises(rows: seq<NameRow>, n: Names, r: Registration)
    ensures RestoreRegistration(rows, n, r).Err?
            <==> if r.registrationId in n.registrations then n.registrations[r.registrationId] != r
                 else r.agentName in n.used
                      || (forall i :: 0 <= i < |rows| && rows[i].scale == r.scale && NameFor(rows[i], r.column) == r.baseName ==>
                            rows[i].likes == "0" || rows[i].japanese == "Nagi" || rows[i].coordinate == "\U{51EA}")
    ensures RestoreRegistration(rows, n, r).Ok? ==>
              RestoreRegistration(rows, n, r).value == n.(used := n.used + {r.agentName}, registrations := n.registrations[r.registrationId := r])
              || (r.registrationId in n.registrations && RestoreRegistration(rows, n, r).value == n)
  {
  }

  /** Fewer than `|used| + 1` names with consecutive numbers can be taken. */
  lemma SuffixBound(baseName: string, used: set<string>, n: nat)
    requires forall k :: 1 <= k <= n ==> Numbered(baseName, k) in used
    ensures n <= |used|
  {
    FirstNamesSize(baseName, n);
    Graph.SubsetSize(FirstNames(baseName, n), used);
  }

  /** The registry. It hands out pool names round-robin per scale and column. */
  class AgentNameRegistry {
    const rows: seq<NameRow>
    var nextIndex: map<(nat, NameColumn), nat>
    var usedNames: set<string>
    var assignments: map<Id, Assignment>
    var registrations: map<Id, Registration>

    ghost function Holdings(): Names
      reads this
    {
      Names(usedNames, assignments, registrations)
    }

    /** Issued names are distinct and are exactly the used ones. */
    ghost predicate Valid()
      reads this
    {
      Issued(rows, Holdings())
    }

    constructor (rows: seq<NameRow>)
      ensures Valid() && this.rows == rows && Holdings() == NO_NAMES && nextIndex == map[]
    {
      this.rows := rows;
      nextIndex, usedNames, assignments, registrations := map[], {}, map[], map[];
    }

    /** A registry needs at least one row. */
    static method FromRows(rows: seq<NameRow>) returns (r: Result<AgentNameRegistry>)
      ensures r.Ok? <==> rows != []
      ensures r.Ok? ==> fresh(r.value) && r.value.Valid() && r.value.rows == rows && r.value.Holdings() == NO_NAMES
    {
      if rows == [] {
        return Err(InvariantViolation);
      }
      var registry := new AgentNameRegistry(rows);
      return Ok(registry);
    }

    method Restore(persisted: seq<Assignment>) returns (ok: bool)
      requires Valid()
      modifies `usedNames, `assignments
      ensures Valid()
      ensures (Holdings(), ok) == RestoreAssignments(rows, old(Holdings()), persisted)
    {
      hide Issued, Resolves;
      ghost var start := Holdings();
      RestoreKeepsIssued(rows, start, persisted);
      assert persisted[..0] == [] && persisted[..|persisted|] == persisted;
      for n := 0 to |persisted|
        invariant (Holdings(), true) == RestoreAssignments(rows, start, persisted[..n])
      {
        var a := persisted[n];
        RestoreStep(rows, start, persisted, n);
        if a.assignmentId in assignments {
          if assignments[a.assignmentId] != a {
            return false;
          }
        } else {
          if a.agentName in usedNames || !Resolves(rows, a.scale, a.column, a.baseName) {
            return false;
          }
          assignments := assignments[a.assignmentId := a];
          usedNames := usedNames + {a.agentName};
        }
      }
      return true;
    }

    method RestoreIdentities(persisted: seq<Registration>) returns (ok: bool)
      requires Valid()
      modifies `usedNames, `registrations
      ensures Valid()
      ensures (Holdings(), ok) == RestoreRegistrations(rows, old(Holdings()), persisted)
    {
      hide Issued, Resolves;
      ghost var start := Holdings();
      RestoreRegistrationsKeepsIssued(rows, start, persisted);
      assert persisted[..0] == [] && persisted[..|persisted|] == persisted;
      for n := 0 to |persisted|
        invariant (Holdings(), true) == RestoreRegistrations(rows, start, persisted[..n])
      {
        var r := persisted[n];
        RestoreRegistrationStep(rows, start, persisted, n);
        if r.registrationId in registrations {
          if registrations[r.registrationId] != r {
            return false;
          }
        } else {
          if r.agentName in usedNames || !Resolves(rows, r.scale, r.column, r.baseName) {
            return false;
          }
          registrations := registrations[r.registrationId := r];
          usedNames := usedNames + {r.agentName};
        }
      }
      return true;
    }

    /** Picks the first free base name after the last one handed out, or else numbers the next base name. */
    method NextName(scale: nat, column: NameColumn, pool: seq<NameRow>) returns (baseName: string, suffix: nat, name: string)
      requires pool != []
      modifies `nextIndex
      ensures NextNameOk(pool, column, usedNames, baseName, suffix, name)
      ensures exists offset :: 0 <= offset < |pool|
                && baseName == NameFor(pool[Turn(StartAt(old(nextIndex), scale, column, |pool|), offset, |pool|)], column)
                && (forall o :: 0 <= o < offset ==> NameFor(pool[Turn(StartAt(old(nextIndex), scale, column, |pool|), o, |pool|)], column) in usedNames)
                && (suffix > 1 ==> offset == 0)
                && nextIndex == old(nextIndex)[(scale, column) := Turn(StartAt(old(nextIndex), scale, column, |pool|), offset, |pool|) + 1]
    {
      hide Turn, StartAt, Numbered;
      var start := StartAt(nextIndex, scale, column, |pool|);
      var offset := 0;
      while offset < |pool| && NameFor(pool[Turn(start, offset, |pool|)], column) in usedNames
        invariant 0 <= offset <= |pool|
        invariant forall o :: 0 <= o < offset ==> NameFor(pool[Turn(start, o, |pool|)], column) in usedNames
      {
        offset := offset + 1;
      }
      if offset == |pool| {
        Around(pool, start, column, usedNames);
        offset := 0;
      }
      var selected := Turn(start, offset, |pool|);
      baseName := NameFor(pool[selected], column);
      suffix, name := NextSuffix(baseName);
      nextIndex := nextIndex[(scale, column) := selected + 1];
    }

    /** Counts the suffix up until the name is free. */
    method NextSuffix(baseName: string) returns (suffix: nat, name: string)
      ensures suffix >= 1 && name == Numbered(baseName, suffix) && name !in usedNames && suffix <= |usedNames| + 1
      ensures forall k :: 1 <= k < suffix ==> Numbered(baseName, k) in usedNames
      ensures suffix > 1 ==> baseName in usedNames
    {
      suffix, name := 1, baseName;
      while name in usedNames
        invariant suffix >= 1 && name == Numbered(baseName, suffix)
        invariant forall k :: 1 <= k < suffix ==> Numbered(baseName, k) in usedNames
        invariant suffix > 1 ==> baseName in usedNames
        decreases |usedNames| + 1 - suffix
      {
        SuffixBound(baseName, usedNames, suffix);
        suffix := suffix + 1;
        name := baseName + Text.Decimal(suffix);
      }
      SuffixBound(baseName, usedNames, suffix - 1);
    }

    /** Issues a name for an execution of a work item. `scale` is undetermined when the model is not recognised. */
    method Allocate(draft: Assignment, scale: Option<nat>, column: NameColumn) returns (r: Result<Assignment>)
      requires Valid()
      modifies `nextIndex, `usedNames, `assignments
      ensures Valid()
      ensures r.Ok? <==> scale.Some? && Pool(rows, scale.value) != [] && draft.assignmentId !in old(assignments)
      ensures r.Err? ==> Holdings() == old(Holdings()) && nextIndex == old(nextIndex)
      ensures r.Ok? ==>
                && NextNameOk(Pool(rows, scale.value), column, old(usedNames), r.value.baseName, r.value.suffix, r.value.agentName)
                && r.value == draft.(agentName := r.value.agentName, baseName := r.value.baseName, suffix := r.value.suffix,
                                     column := column, scale := scale.value)
                && Holdings() == AddAssignment(old(Holdings()), r.value)
    {
      hide Issued, Resolves;
      if scale.None? {
        return Err(InvariantViolation);
      }
      var pool := Pool(rows, scale.value);
      if pool == [] || draft.assignmentId in assignments {
        return Err(InvariantViolation);
      }
      var baseName, suffix, name := NextName(scale.value, column, pool);
      var a := draft.(agentName := name, baseName := baseName, suffix := suffix, column := column, scale := scale.value);
      PoolResolves(rows, scale.value, column, baseName);
      AssignmentIssued(rows, Holdings(), a);
      assignments := assignments[a.assignmentId := a];
      usedNames := usedNames + {name};
      return Ok(a);
    }

    /** Issues a name to an agent that has no work item yet. */
    method AllocateOutOfPipeline(draft: Registration, scale: Option<nat>, column: NameColumn) returns (r: Result<Registration>)
      requires Valid()
      modifies `nextIndex, `usedNames, `registrations
      ensures Valid()
      ensures r.Ok? <==> scale.Some? && Pool(rows, scale.value) != []
                         && draft.registrationId !in old(registrations) && draft.registrationId !in old(assignments)
      ensures r.Err? ==> Holdings() == old(Holdings()) && nextIndex == old(nextIndex)
      ensures r.Ok? ==>
                && NextNameOk(Pool(rows, scale.value), column, old(usedNames), r.value.baseName, r.value.suffix, r.value.agentName)
                && r.value == draft.(agentName := r.value.agentName, baseName := r.value.baseName, suffix := r.value.suffix,
                                     column := column, scale := scale.value)
                && Holdings() == AddRegistration(old(Holdings()), r.value)
    {
      hide Issued, Resolves;
      if scale.None? {
        return Err(InvariantViolation);
      }
      var pool := Pool(rows, scale.value);
      if pool == [] || draft.registrationId in registrations || draft.registrationId in assignments {
        return Err(InvariantViolation);
      }
      var baseName, suffix, name := NextName(scale.value, column, pool);
      var identity := draft.(agentName := name, baseName := baseName, suffix := suffix, column := column, scale := scale.value);
      PoolResolves(rows, scale.value, column, baseName);
      RegistrationIssued(rows, Holdings(), identity);
      registrations := registrations[identity.registrationId := identity];
      usedNames := usedNames + {name};
      return Ok(identity);
    }
  }

  lemma RestoreStep(rows: seq<NameRow>, n: Names, persisted: seq<Assignment>, i: nat)
    requires i < |persisted| && RestoreAssignments(rows, n, persisted[..i]).1
    ensures var m := RestoreAssignments(rows, n, persisted[..i]).0;
            RestoreAssignments(rows, n, persisted[..i + 1]) ==
              match RestoreAssignment(rows, m, persisted[i]) case Ok(next) => (next, true) case Err(_) => (m, false)
    ensures RestoreAssignment(rows, RestoreAssignments(rows, n, persisted[..i]).0, persisted[i]).Err? ==>
              RestoreAssignments(rows, n, persisted) == (RestoreAssignments(rows, n, persisted[..i]).0, false)
  {
    hide RestoreAssignment;
    assert persisted[..i + 1][..i] == persisted[..i];
    if !RestoreAssignments(rows, n, persisted[..i + 1]).1 {
      StopsForGood(rows, n, persisted, i + 1);
    }
  }

  lemma {:induction false} StopsForGood(rows: seq<NameRow>, n: Names, persisted: seq<Assignment>, i: nat)
    requires i <= |persisted| && !RestoreAssignments(rows, n, persisted[..i]).1
    ensures RestoreAssignments(rows, n, persisted) == RestoreAssignments(rows, n, persisted[..i])
    decreases |persisted|
  {
    hide RestoreAssignment;
    if i == |persisted| {
      assert persisted[..i] == persisted;
    } else {
      assert persisted[..|persisted| - 1][..i] == persisted[..i];
      StopsForGood(rows, n, persisted[..|persisted| - 1], i);
    }
  }

  lemma RestoreRegistrationStep(rows: seq<NameRow>, n: Names, persisted: seq<Registration>, i: nat)
    requires i < |persisted| && RestoreRegistrations(rows, n, persisted[..i]).1
    ensures var m := RestoreRegistrations(rows, n, persisted[..i]).0;
            RestoreRegistrations(rows, n, persisted[..i + 1]) ==
              match RestoreRegistration(rows, m, persisted[i]) case Ok(next) => (next, true) case Err(_) => (m, false)
    ensures RestoreRegistration(rows, RestoreRegistrations(rows, n, persisted[..i]).0, persisted[i]).Err? ==>
              RestoreRegistrations(rows, n, persisted) == (RestoreRegistrations(rows, n, persisted[..i]).0, false)
  {
    hide RestoreRegistration;
    assert persisted[..i + 1][..i] == persisted[..i];
    if !RestoreRegistrations(rows, n, persisted[..i + 1]).1 {
      RegistrationsStopForGood(rows, n, persisted, i + 1);
    }
  }

  lemma {:induction false} RegistrationsStopForGood(rows: seq<NameRow>, n: Names, persisted: seq<Registration>, i: nat)
    requires i <= |persisted| && !RestoreRegistrations(rows, n, persisted[..i]).1
    ensures RestoreRegistrations(rows, n, persisted) == RestoreRegistrations(rows, n, persisted[..i])
    decreases |persisted|
  {
    hide RestoreRegistration;
    if i == |persisted| {
      assert persisted[..i] == persisted;
    } else {
      assert persisted[..|persisted| - 1][..i] == persisted[..i];
      RegistrationsStopForGood(rows, n, persisted[..|persisted| - 1], i);
    }
  }

  /** Where the search of a pool starts. */
  function StartAt(nextIndex: map<(nat, NameColumn), nat>, scale: nat, column: NameColumn, n: nat): (start: nat)
    requires n > 0
    ensures start < n
  {
    (if (scale, column) in nextIndex then nextIndex[(scale, column)] else 0) % n
  }

  /** The search goes on after the row that was handed out last. */
  lemma GoesOn(nextIndex: map<(nat, NameColumn), nat>, scale: nat, column: NameColumn, n: nat, last: nat)
    requires last < n
    ensures StartAt(nextIndex[(scale, column) := last + 1], scale, column, n) == if last + 1 == n then 0 else last + 1
    ensures (scale, column) !in nextIndex ==> StartAt(nextIndex, scale, column, n) == 0
  {
    if last + 1 == n {
      OnceAround(0, n);
    } else {
      BelowStays(last + 1, n);
    }
    BelowStays(0, n);
  }

  lemma BelowStays(x: nat, n: nat)
    requires x < n
    ensures x % n == x
  {
    var q := x / n;
    assert x == q * n + x % n;
    Multiples(q, n);
  }

  /** The `o`-th index after `start`, around the end. */
  function Turn(start: nat, o: nat, n: nat): (i: nat)
    requires start < n && o < n
    ensures i < n && i == (start + o) % n
  {
    if start + o < n then start + o
    else
      assert (start + o) % n == start + o - n by { OnceAround(start + o - n, n); }
      start + o - n
  }

  lemma OnceAround(x: nat, n: nat)
    requires x < n
    ensures (x + n) % n == x
  {
    var q := (x + n) / n;
    assert x + n == q * n + (x + n) % n;
    Multiples(q, n);
  }

  lemma Multiples(q: int, n: nat)
    ensures q <= 0 ==> q * n <= 0
    ensures q >= 2 ==> q * n >= 2 * n
  {
  }

  /** Going once around the pool visits every row. */
  lemma Around(pool: seq<NameRow>, start: nat, column: NameColumn, used: set<string>)
    requires start < |pool|
    requires forall o :: 0 <= o < |pool| ==> NameFor(pool[Turn(start, o, |pool|)], column) in used
    ensures forall i :: 0 <= i < |pool| ==> NameFor(pool[i], column) in used
  {
    forall i | 0 <= i < |pool| ensures NameFor(pool[i], column) in used {
      assert Turn(start, if i >= start then i - start else i - start + |pool|, |pool|) == i;
    }
  }

  lemma PoolResolves(rows: seq<NameRow>, scale: nat, column: NameColumn, baseName: string)
    requires exists i :: 0 <= i < |Pool(rows, scale)| && NameFor(Pool(rows, scale)[i], column) == baseName
    ensures Resolves(rows, scale, column, baseName)
  {
    var i :| 0 <= i < |Pool(rows, scale)| && NameFor(Pool(rows, scale)[i], column) == baseName;
    assert Pool(rows, scale)[i] in Pool(rows, scale);
    var j :| 0 <= j < |rows| && rows[j] == Pool(rows, scale)[i];
  }

  // ---- processes that come and go

  /** The registry of the running process, what the ledger holds of its names, and whether a restore ever raised. */
  datatype NamingSystem = NamingSystem(registry: Names, persisted: Names, raised: bool)

  /** Issuing a name, recording an issued one, and restarting from the recorded ones in some listing. */
  datatype NamingEvent =
    | Issues(issued: Assignment) | IssuesIdentity(identity: Registration)
    | Records(assignmentId: Id) | RecordsIdentity(registrationId: Id)
    | Restarts(listing: seq<Assignment>, identities: seq<Registration>)

  ghost predicate Possible(rows: seq<NameRow>, x: NamingSystem, e: NamingEvent) {
    match e
    case Issues(a) => a.assignmentId !in x.registry.assignments && a.agentName !in x.registry.used && Resolves(rows, a.scale, a.column, a.baseName)
    case IssuesIdentity(r) =>
      r.registrationId !in x.registry.registrations && r.agentName !in x.registry.used && Resolves(rows, r.scale, r.column, r.baseName)
    case Records(id) => id in x.registry.assignments
    case RecordsIdentity(id) => id in x.registry.registrations
    case Restarts(listing, identities) =>
      && IssuedBy(x.persisted, listing) && RegisteredBy(x.persisted, identities)
      && (forall k :: k in x.persisted.assignments ==> x.persisted.assignments[k] in listing)
      && (forall k :: k in x.persisted.registrations ==> x.persisted.registrations[k] in identities)
  }

  function AfterNaming(rows: seq<NameRow>, x: NamingSystem, e: NamingEvent): NamingSystem {
    match e
    case Issues(a) => x.(registry := AddAssignment(x.registry, a))
    case IssuesIdentity(r) => x.(registry := AddRegistration(x.registry, r))
    case Records(id) =>
      if id !in x.registry.assignments then x else x.(persisted := AddAssignment(x.persisted, x.registry.assignments[id]))
    case RecordsIdentity(id) =>
      if id !in x.registry.registrations then x else x.(persisted := AddRegistration(x.persisted, x.registry.registrations[id]))
    case Restarts(listing, identities) =>
      var (first, ok) := RestoreAssignments(rows, NO_NAMES, listing);
      var (second, okToo) := RestoreRegistrations(rows, first, identities);
      x.(registry := second, raised := x.raised || !ok || !okToo)
  }

  ghost predicate PossibleRun(rows: seq<NameRow>, x: NamingSystem, events: seq<NamingEvent>)
    decreases |events|
  {
    events == [] || (Possible(rows, x, events[0]) && PossibleRun(rows, AfterNaming(rows, x, events[0]), events[1..]))
  }

  function AfterAll(rows: seq<NameRow>, x: NamingSystem, events: seq<NamingEvent>): NamingSystem
    decreases |events|
  {
    if events == [] then x else AfterAll(rows, AfterNaming(rows, x, events[0]), events[1..])
  }

  ghost predicate NamingSafe(rows: seq<NameRow>, x: NamingSystem) {
    Issued(rows, x.registry) && Within(x.persisted, x.registry) && Keyed(x.persisted) && !x.raised
  }

  lemma NamingStep(rows: seq<NameRow>, x: NamingSystem, e: NamingEvent)
    requires NamingSafe(rows, x) && Possible(rows, x, e)
    ensures NamingSafe(rows, AfterNaming(rows, x, e))
  {
    hide Resolves, Distinct, UsedAreIssued, AllResolve, RestoreAssignments, RestoreRegistrations;
    match e {
    case Issues(a) => AssignmentIssued(rows, x.registry, a);
    case IssuesIdentity(r) => RegistrationIssued(rows, x.registry, r);
    case Records(_) =>
    case RecordsIdentity(_) =>
    case Restarts(listing, identities) => RestartStep(rows, x, listing, identities);
    }
  }

  lemma RestartStep(rows: seq<NameRow>, x: NamingSystem, listing: seq<Assignment>, identities: seq<Registration>)
    requires NamingSafe(rows, x) && Possible(rows, x, Restarts(listing, identities))
    ensures NamingSafe(rows, AfterNaming(rows, x, Restarts(listing, identities)))
  {
    hide Resolves, Distinct, UsedAreIssued, AllResolve, RestoreAssignments, RestoreRegistrations;
    RestartRestores(rows, x.registry, listing, identities);
    var n := AfterNaming(rows, x, Restarts(listing, identities)).registry;
    forall k | k in x.persisted.assignments ensures k in n.assignments && n.assignments[k] == x.persisted.assignments[k] {
      assert x.persisted.assignments[k] in listing;
    }
    forall k | k in x.persisted.registrations ensures k in n.registrations && n.registrations[k] == x.persisted.registrations[k] {
      assert x.persisted.registrations[k] in identities;
    }
  }

  /** Over any history of issuing, recording and restarting with the same rows, no restore ever raises, recorded
      names are never lost, and all names of the running registry are distinct and equal to its used set. */
  lemma {:induction false} NamingNeverFails(rows: seq<NameRow>, x: NamingSystem, events: seq<NamingEvent>)
    requires NamingSafe(rows, x) && PossibleRun(rows, x, events)
    ensures NamingSafe(rows, AfterAll(rows, x, events))
    decreases |events|
  {
    hide NamingSafe, Possible, AfterNaming;
    if events != [] {
      NamingStep(rows, x, events[0]);
      NamingNeverFails(rows, AfterNaming(rows, x, events[0]), events[1..]);
    }
  }
}
