// The restore drill's containers, volumes and images: what the run creates it writes into a ledger,
// and the ledger removes only what still carries the run's label.
//
// Every command may fail with or without having had its effect; `env` says what each does, by the
// number of commands before it. An inspection that succeeds tells the truth.
module ResourceLedger {
  import opened Common

  type Id = int
  datatype Kind = Container | Volume | Image
  // `tag` is the ownership label.
  datatype Resource = Resource(kind: Kind, name: string, identity: Id, tag: string)
  datatype Owned = Owned(kind: Kind, identity: Id, run: string)
  datatype Key = ByName(name: string) | ById(identity: Id)

  datatype Outcome = Works | FailsAfterEffect | FailsBeforeEffect

  // What an inspection says: the identity and the label, absence, or nothing usable.
  datatype Inspection = Found(identity: Id, tag: string) | Absent | Failed

  datatype Entry =
    | Inspected(kind: Kind, key: Key, result: Inspection)
    | Creation(kind: Kind, name: string)
    | Removal(kind: Kind, identity: Id)
    | Started(identity: Id)
    | Queried

  predicate Names(r: Resource, kind: Kind, key: Key) {
    r.kind == kind && match key case ByName(n) => r.name == n case ById(i) => r.identity == i
  }

  // Names are unique per kind, identities throughout.
  ghost predicate Unique(live: set<Resource>, next: Id) {
    && (forall r :: r in live ==> r.identity < next)
    && (forall r, s :: r in live && s in live && (r.identity == s.identity || (r.kind == s.kind && r.name == s.name)) ==> r == s)
  }

  // No command fails.
  ghost predicate AllWork(env: nat -> Outcome) { forall i: nat :: env(i) == Works }

  predicate NameFree(live: set<Resource>, kind: Kind, name: string) {
    forall x :: x in live ==> !Names(x, kind, ByName(name))
  }

  // A resource of the run with that identity exists.
  ghost predicate Exists(live: set<Resource>, o: Owned) {
    exists x :: x in live && Names(x, o.kind, ById(o.identity)) && x.tag == o.run
  }

  // Every removal comes right after an inspection that found the run's label on its target, and so does
  // every start of a container.
  ghost predicate ActionsChecked(log: seq<Entry>, run: string) {
    forall i :: 0 <= i < |log| ==> Checked(log[..i], log[i], run)
  }

  predicate Checked(before: seq<Entry>, e: Entry, run: string) {
    match e
    case Removal(kind, identity) => before != [] && before[|before| - 1] == Inspected(kind, ById(identity), Found(identity, run))
    case Started(identity) => before != [] && before[|before| - 1] == Inspected(Container, ById(identity), Found(identity, run))
    case _ => true
  }

  // The resources whose ownership was inspected, in order.
  function Attempts(log: seq<Entry>): seq<(Kind, Id)> {
    if log == [] then []
    else
      var e := log[|log| - 1];
      Attempts(log[..|log| - 1]) + (if e.Inspected? && e.key.ById? then [(e.kind, e.key.identity)] else [])
  }

  // What the run set going: the creations it ordered and the containers it started, in order.
  datatype Doing = Ordered(kind: Kind, name: string) | Ran

  function Doings(log: seq<Entry>): seq<Doing> {
    if log == [] then []
    else
      var e := log[|log| - 1];
      Doings(log[..|log| - 1]) + (if e.Creation? then [Ordered(e.kind, e.name)] else if e.Started? then [Ran] else [])
  }

  lemma LogSnoc(log: seq<Entry>, e: Entry, run: string)
    ensures Attempts(log + [e]) == Attempts(log) + (if e.Inspected? && e.key.ById? then [(e.kind, e.key.identity)] else [])
    ensures Doings(log + [e]) == Doings(log) + (if e.Creation? then [Ordered(e.kind, e.name)] else if e.Started? then [Ran] else [])
    ensures ActionsChecked(log, run) && Checked(log, e, run) ==> ActionsChecked(log + [e], run)
  {
    assert (log + [e])[..|log|] == log;
    forall i | 0 <= i < |log| ensures (log + [e])[..i] == log[..i] {
    }
  }

  // The inspection right after a creation of that name gave nothing usable.
  predicate LookupFailed(log: seq<Entry>, kind: Kind, name: string) {
    exists i :: 0 < i < |log| && log[i] == Inspected(kind, ByName(name), Failed) && log[i - 1] == Creation(kind, name)
  }

  predicate LastLookupFailed(log: seq<Entry>, kind: Kind, name: string) {
    |log| >= 2 && log[|log| - 1] == Inspected(kind, ByName(name), Failed) && log[|log| - 2] == Creation(kind, name)
  }

  lemma LookupStaysFailed(log: seq<Entry>, more: seq<Entry>, kind: Kind, name: string)
    requires log <= more
    ensures LookupFailed(log, kind, name) ==> LookupFailed(more, kind, name)
    ensures LastLookupFailed(log, kind, name) ==> LookupFailed(log, kind, name)
  {
  }

  // From `start` on the label of the resource could not be read, or its removal was refused.
  predicate Stuck(log: seq<Entry>, start: nat, env: nat -> Outcome, kind: Kind, identity: Id) {
    exists i :: start <= i < |log| &&
      (log[i] == Inspected(kind, ById(identity), Failed) || (log[i] == Removal(kind, identity) && env(i) == FailsBeforeEffect))
  }

  // From `start` on there is nothing but inspections of identities and removals.
  predicate OnlyCleanup(log: seq<Entry>, start: nat) {
    forall i :: start <= i < |log| ==> (log[i].Inspected? && log[i].key.ById?) || log[i].Removal?
  }

  // What still exists of the run could not be looked up when it was created, or the cleanup that ends the
  // log could not read its label or remove it.
  ghost predicate OnlyStuckIsLeft(log: seq<Entry>, env: nat -> Outcome, left: set<Resource>) {
    exists start :: 0 <= start <= |log| && OnlyCleanup(log, start) &&
      forall r :: r in left ==> LookupFailed(log, r.kind, r.name) || Stuck(log, start, env, r.kind, r.identity)
  }

  class Docker {
    const env: nat -> Outcome
    const run: string
    var live: set<Resource>
    var next: Id
    var log: seq<Entry>
    // What this run created, whether or not it still exists.
    ghost var created: set<Resource>

    ghost predicate Valid() reads this {
      && Unique(live, next) && ActionsChecked(log, run)
      && forall r :: r in created ==> r.tag == run && r.identity < next
    }

    constructor (env: nat -> Outcome, run: string, live: set<Resource>, next: Id)
      requires Unique(live, next)
      ensures Valid() && this.env == env && this.run == run && this.live == live && created == {} && log == []
    {
      this.env, this.run, this.live, this.next := env, run, live, next;
      log, created := [], {};
    }

    method Inspect(kind: Kind, key: Key) returns (r: Inspection)
      requires Valid()
      modifies this`log
      ensures Valid() && log == old(log) + [Inspected(kind, key, r)]
      ensures env(|old(log)|) == Works ==> !r.Failed?
      ensures r.Found? ==> exists x :: x in live && Names(x, kind, key) && x.identity == r.identity && x.tag == r.tag
      ensures r.Absent? ==> forall x :: x in live ==> !Names(x, kind, key)
      ensures Attempts(log) == Attempts(old(log)) + (if key.ById? then [(kind, key.identity)] else [])
      ensures Doings(log) == Doings(old(log))
    {
      r := Failed;
      if env(|log|) == Works {
        if x :| x in live && Names(x, kind, key) {
          r := Found(x.identity, x.tag);
        } else {
          r := Absent;
        }
      }
      LogSnoc(log, Inspected(kind, key, r), run);
      log := log + [Inspected(kind, key, r)];
    }

    // docker create, docker build: refused when the name is taken.
    method Create(kind: Kind, name: string) returns (ok: bool)
      requires Valid()
      modifies this
      ensures Valid() && log == old(log) + [Creation(kind, name)]
      ensures live == old(live) ==> created == old(created)
      ensures live != old(live) ==>
                && (forall x :: x in old(live) ==> !Names(x, kind, ByName(name)))
                && exists x :: x !in old(live) && live == old(live) + {x} && created == old(created) + {x} && Names(x, kind, ByName(name)) && x.tag == run
      ensures ok ==> exists x :: x in live && Names(x, kind, ByName(name))
      ensures env(|old(log)|) == Works && NameFree(old(live), kind, name) ==> ok && live != old(live)
      ensures Attempts(log) == Attempts(old(log)) && Doings(log) == Doings(old(log)) + [Ordered(kind, name)]
    {
      var outcome := env(|log|);
      LogSnoc(log, Creation(kind, name), run);
      log := log + [Creation(kind, name)];
      ok := false;
      if outcome == FailsBeforeEffect || exists x :: x in live && Names(x, kind, ByName(name)) {
        return;
      }
      var r := Resource(kind, name, next, run);
      next := next + 1;
      live := live + {r};
      created := created + {r};
      ok := outcome == Works;
    }

    // docker rm, right after an inspection that found the label.
    method Remove(kind: Kind, identity: Id) returns (ok: bool)
      requires Valid() && log != [] && log[|log| - 1] == Inspected(kind, ById(identity), Found(identity, run))
      modifies this`live, this`log
      ensures Valid() && log == old(log) + [Removal(kind, identity)]
      ensures live <= old(live) && forall x :: x in old(live) && !Names(x, kind, ById(identity)) ==> x in live
      ensures ok <==> env(|old(log)|) == Works
      ensures env(|old(log)|) != FailsBeforeEffect ==> forall x :: x in live ==> !Names(x, kind, ById(identity))
      ensures Attempts(log) == Attempts(old(log)) && Doings(log) == Doings(old(log))
    {
      var outcome := env(|log|);
      LogSnoc(log, Removal(kind, identity), run);
      log := log + [Removal(kind, identity)];
      if outcome != FailsBeforeEffect {
        live := set x | x in live && !Names(x, kind, ById(identity));
      }
      ok := outcome == Works;
    }

    // docker start, right after an inspection that found the label.
    method Start(identity: Id) returns (ok: bool)
      requires Valid() && log != [] && log[|log| - 1] == Inspected(Container, ById(identity), Found(identity, run))
      modifies this`log
      ensures Valid() && log == old(log) + [Started(identity)] && (ok <==> env(|old(log)|) == Works)
      ensures Attempts(log) == Attempts(old(log)) && Doings(log) == Doings(old(log)) + [Ran]
    {
      ok := env(|log|) == Works;
      LogSnoc(log, Started(identity), run);
      log := log + [Started(identity)];
    }

    // A command about the engine itself.
    method Query() returns (ok: bool)
      requires Valid()
      modifies this`log
      ensures Valid() && log == old(log) + [Queried] && (ok <==> env(|old(log)|) == Works) && Doings(log) == Doings(old(log))
    {
      ok := env(|log|) == Works;
      LogSnoc(log, Queried, run);
      log := log + [Queried];
    }

    // The name must be free.
    method RequireAbsent(kind: Kind, name: string) returns (ok: bool)
      requires Valid()
      modifies this`log
      ensures Valid() && old(log) <= log && Doings(log) == Doings(old(log))
      ensures ok ==> NameFree(live, kind, name)
      ensures env(|old(log)|) == Works && NameFree(live, kind, name) ==> ok
    {
      var r := Inspect(kind, ByName(name));
      ok := r.Absent?;
    }

    // The creation and the look-up that follows it, whatever the creation reported.
    method CreateAndFind(kind: Kind, name: string) returns (done: bool, r: Option<Owned>)
      requires Valid() && NameFree(live, kind, name)
      modifies this
      ensures Valid() && old(log) <= log && old(live) <= live && old(created) <= created
      ensures Doings(log) == Doings(old(log)) + [Ordered(kind, name)]
      ensures forall k, n :: NameFree(old(live), k, n) && !(k == kind && n == name) ==> NameFree(live, k, n)
      ensures forall x :: x in created && x in live && !(x in old(created) && x in old(live)) ==>
                x.kind == kind && x.name == name && (r == Some(Owned(kind, x.identity, run)) || LastLookupFailed(log, kind, name))
      ensures r.Some? ==> && r.value.kind == kind && r.value.run == run && !LastLookupFailed(log, kind, name)
                          && exists x :: x in live && Names(x, kind, ByName(name)) && x.identity == r.value.identity && x.tag == run
      ensures AllWork(env) ==> done && r.Some?
    {
      hide ActionsChecked, Doings, Attempts;
      done := Create(kind, name);
      ghost var ordered := log;
      r := FindOwned(kind, ByName(name));
      assert log[..|ordered|] == ordered;
    }

    // None where the label is not the run's, the resource is absent, or the inspection fails.
    method FindOwned(kind: Kind, key: Key) returns (r: Option<Owned>)
      requires Valid()
      modifies this`log
      ensures Valid() && |log| == |old(log)| + 1 && old(log) <= log
      ensures env(|old(log)|) == Works ==> log[|log| - 1] != Inspected(kind, key, Failed)
      ensures log[|log| - 1].Inspected? && log[|log| - 1].kind == kind && log[|log| - 1].key == key
      ensures Attempts(log) == Attempts(old(log)) + (if key.ById? then [(kind, key.identity)] else [])
      ensures Doings(log) == Doings(old(log))
      // A resource of the run is found unless the inspection itself fails.
      ensures r.None? && (exists x :: x in live && Names(x, kind, key) && x.tag == run) ==> log[|log| - 1] == Inspected(kind, key, Failed)
      ensures r.Some? ==> && r.value.kind == kind && r.value.run == run
                          && log[|log| - 1] == Inspected(kind, key, Found(r.value.identity, run))
                          && exists x :: x in live && Names(x, kind, key) && x.identity == r.value.identity && x.tag == run
    {
      var i := Inspect(kind, key);
      r := if i.Found? && i.tag == run then Some(Owned(kind, i.identity, run)) else None;
    }
  }

  function Reversed(s: seq<Owned>): seq<Owned> {
    if s == [] then [] else [s[|s| - 1]] + Reversed(s[..|s| - 1])
  }

  function Targets(s: seq<Owned>): seq<(Kind, Id)> {
    seq(|s|, i requires 0 <= i < |s| => (s[i].kind, s[i].identity))
  }

  ghost predicate Gone(live: set<Resource>, o: Owned) {
    forall x :: x in live ==> !Names(x, o.kind, ById(o.identity))
  }

  // No resource of the run has that identity any more, or it is stuck.
  ghost predicate Settled(live: set<Resource>, log: seq<Entry>, start: nat, env: nat -> Outcome, o: Owned) {
    Stuck(log, start, env, o.kind, o.identity) || forall x :: x in live && Names(x, o.kind, ById(o.identity)) ==> x.tag != o.run
  }

  ghost predicate AllSettled(live: set<Resource>, log: seq<Entry>, start: nat, env: nat -> Outcome, s: seq<Owned>) {
    forall o :: o in s ==> Settled(live, log, start, env, o)
  }

  lemma SettledStays(before: set<Resource>, after: set<Resource>, log: seq<Entry>, more: seq<Entry>, start: nat, later: nat, env: nat -> Outcome, s: seq<Owned>)
    requires after <= before && log <= more && start <= later && AllSettled(before, log, later, env, s)
    ensures AllSettled(after, more, start, env, s)
  {
    forall o | o in s ensures Settled(after, more, start, env, o) {
      assert Settled(before, log, later, env, o);
    }
  }

  lemma OneMoreSettled(live: set<Resource>, log: seq<Entry>, start: nat, env: nat -> Outcome, o: Owned, s: seq<Owned>)
    requires Settled(live, log, start, env, o) && AllSettled(live, log, start, env, s)
    ensures AllSettled(live, log, start, env, [o] + s)
  {
    hide Settled;
  }

  lemma NoneSettled(live: set<Resource>, log: seq<Entry>, start: nat, env: nat -> Outcome)
    ensures AllSettled(live, log, start, env, [])
  {
  }

  lemma CleanupGoesOn(log: seq<Entry>, more: seq<Entry>, start: nat)
    requires log <= more && start <= |log| && OnlyCleanup(log, start) && OnlyCleanup(more, |log|)
    ensures OnlyCleanup(more, start)
  {
  }

  ghost predicate AllGone(live: set<Resource>, s: seq<Owned>) {
    forall o :: o in s ==> Gone(live, o)
  }

  lemma GoneStays(before: set<Resource>, after: set<Resource>, s: seq<Owned>)
    requires after <= before && AllGone(before, s)
    ensures AllGone(after, s)
  {
    forall o | o in s ensures Gone(after, o) {
      assert Gone(before, o);
    }
  }

  lemma OneMoreGone(live: set<Resource>, o: Owned, s: seq<Owned>)
    requires Gone(live, o) && AllGone(live, s)
    ensures AllGone(live, [o] + s)
  {
    hide Gone;
  }

  // list.remove: the first equal element goes.
  function RemoveFirst(s: seq<Owned>, o: Owned): seq<Owned> {
    if s == [] then [] else if s[0] == o then s[1..] else [s[0]] + RemoveFirst(s[1..], o)
  }

  lemma {:induction false} RemoveFirstKeeps(s: seq<Owned>, o: Owned, p: Owned)
    requires p in s && p != o
    ensures p in RemoveFirst(s, o)
  {
    if s[0] != o && s[0] != p {
      RemoveFirstKeeps(s[1..], o, p);
    }
  }

  ghost predicate OfRun(s: seq<Owned>, run: string) { forall o :: o in s ==> o.run == run }

  lemma {:induction false} RemoveFirstMembers(s: seq<Owned>, o: Owned)
    ensures forall p :: p in RemoveFirst(s, o) ==> p in s
  {
    if s != [] && s[0] != o {
      RemoveFirstMembers(s[1..], o);
    }
  }

  ghost predicate SoundList(live: set<Resource>, s: seq<Owned>, kind: Kind) {
    && (forall i :: 0 <= i < |s| ==> s[i].kind == kind && Exists(live, s[i]))
    && (forall i, j :: 0 <= i < j < |s| ==> s[i] != s[j])
  }

  // What exists and is not among those targeted still exists.
  ghost predicate OthersStay(before: set<Resource>, after: set<Resource>, s: seq<Owned>, run: string) {
    forall o: Owned :: o.run == run && o !in s && Exists(before, o) ==> Exists(after, o)
  }

  lemma OthersStayOn(a: set<Resource>, b: set<Resource>, c: set<Resource>, s: seq<Owned>, o: Owned, run: string)
    requires OthersStay(a, b, s, run) && OthersStay(b, c, [o], run)
    ensures OthersStay(a, c, [o] + s, run)
  {
    hide Exists;
  }

  lemma NoneGoes(live: set<Resource>, run: string)
    ensures OthersStay(live, live, [], run)
  {
  }

  // The next one to remove is still there: it was listed once.
  lemma StillExists(before: set<Resource>, now: set<Resource>, s: seq<Owned>, i: nat, run: string)
    requires i < |s| && OthersStay(before, now, s[i + 1..], run) && s[i].run == run
    ensures forall kind :: SoundList(before, s, kind) ==> Exists(now, s[i])
  {
    hide Exists;
    forall kind | SoundList(before, s, kind) ensures Exists(now, s[i]) {
      assert s[i] !in s[i + 1..];
    }
  }

  lemma OtherKind(live: set<Resource>, more: set<Resource>, s: seq<Owned>, kind: Kind, t: seq<Owned>, other: Kind)
    requires SoundList(live, s, kind) && SoundList(more, t, other) && kind != other
    ensures forall i :: 0 <= i < |s| ==> s[i] !in t
  {
    hide Exists;
  }

  lemma SoundStays(before: set<Resource>, after: set<Resource>, s: seq<Owned>, kind: Kind, gone: seq<Owned>, run: string)
    requires SoundList(before, s, kind) && OthersStay(before, after, gone, run) && OfRun(s, run)
    requires forall i :: 0 <= i < |gone| ==> gone[i] !in s
    ensures SoundList(after, s, kind)
  {
    hide Exists;
    forall i | 0 <= i < |s| ensures Exists(after, s[i]) {
      assert s[i] in s;
    }
  }

  lemma SoundGrows(before: set<Resource>, after: set<Resource>, s: seq<Owned>, kind: Kind)
    requires SoundList(before, s, kind) && before <= after
    ensures SoundList(after, s, kind)
  {
    forall o | Exists(before, o) ensures Exists(after, o) {
    }
    hide Exists;
  }

  lemma {:induction false} SoundWithout(live: set<Resource>, s: seq<Owned>, kind: Kind, o: Owned)
    requires SoundList(live, s, kind)
    ensures SoundList(live, RemoveFirst(s, o), kind) && o !in RemoveFirst(s, o)
  {
    hide Exists;
    if s != [] && s[0] != o {
      SoundWithout(live, s[1..], kind, o);
      RemoveFirstMembers(s[1..], o);
      var t := RemoveFirst(s[1..], o);
      forall i | 0 <= i < |t| ensures s[0] != t[i] {
        assert t[i] in s[1..];
      }
    }
  }

  function NewIn(r: Option<Owned>, list: Kind): seq<Owned> {
    if r.Some? && r.value.kind == list then [r.value] else []
  }

  // Removing everything in one list leaves another list sound.
  lemma ListSound(before: set<Resource>, after: set<Resource>, s: seq<Owned>, kind: Kind, gone: seq<Owned>, other: Kind, run: string)
    requires OthersStay(before, after, gone, run) && OfRun(s, run) && kind != other
    ensures SoundList(before, s, kind) && SoundList(before, gone, other) ==> SoundList(after, s, kind)
  {
    if SoundList(before, s, kind) && SoundList(before, gone, other) {
      OtherKind(before, before, gone, other, s, kind);
      hide SoundList, OthersStay;
      SoundStays(before, after, s, kind, gone, run);
    }
  }

  class Ledger {
    const docker: Docker
    var containers: seq<Owned>
    var volumes: seq<Owned>
    var images: seq<Owned>

    ghost predicate Valid() reads this, docker {
      docker.Valid() && OfRun(containers, docker.run) && OfRun(volumes, docker.run) && OfRun(images, docker.run)
    }

    predicate Listed(o: Owned) reads this {
      match o.kind
      case Container => o in containers
      case Volume => o in volumes
      case Image => o in images
    }

    // Everything the run created that still exists is in the ledger.
    ghost predicate Tracked() reads this, docker {
      forall r :: r in docker.created && r in docker.live ==> Listed(Owned(r.kind, r.identity, docker.run))
    }

    // Whatever of it is not listed could not be looked up when it was created.
    ghost predicate Accounted() reads this, docker {
      forall r :: r in docker.created && r in docker.live ==>
        Listed(Owned(r.kind, r.identity, docker.run)) || LookupFailed(docker.log, r.kind, r.name)
    }

    // Everything listed still exists, is listed once, and in the list of its kind.
    ghost predicate Sound() reads this, docker {
      SoundList(docker.live, containers, Container) && SoundList(docker.live, volumes, Volume) && SoundList(docker.live, images, Image)
    }

    constructor (docker: Docker)
      requires docker.Valid() && docker.created == {}
      ensures Valid() && Tracked() && Accounted() && Sound() && this.docker == docker && containers == [] && volumes == [] && images == []
    {
      this.docker := docker;
      containers, volumes, images := [], [], [];
    }

    method Append(o: Owned)
      requires Valid() && o.run == docker.run
      modifies this
      ensures Valid() && Listed(o) && forall p :: old(Listed(p)) ==> Listed(p)
      ensures containers == old(containers) + if o.kind == Container then [o] else []
      ensures volumes == old(volumes) + if o.kind == Volume then [o] else []
      ensures images == old(images) + if o.kind == Image then [o] else []
    {
      match o.kind
      case Container => containers := containers + [o];
      case Volume => volumes := volumes + [o];
      case Image => images := images + [o];
    }

    // Creates a resource and lists it; when the outcome is unclear it is listed if it can be found. Nothing
    // created is left unlisted but where that very look-up fails.
    method CreateOwned(kind: Kind, name: string) returns (r: Option<Owned>)
      requires Valid()
      modifies this, docker
      ensures Valid() && old(docker.log) <= docker.log
      ensures old(Tracked()) ==> Tracked() || LastLookupFailed(docker.log, kind, name)
      ensures old(Accounted()) ==> Accounted()
      ensures r.Some? ==> !LastLookupFailed(docker.log, kind, name)
      ensures old(Sound()) ==> Sound()
      ensures forall k, n :: NameFree(old(docker.live), k, n) && !(k == kind && n == name) ==> NameFree(docker.live, k, n)
      ensures AllWork(docker.env) && NameFree(old(docker.live), kind, name) ==> r.Some?
      ensures r.Some? ==> r.value.kind == kind && r.value.run == docker.run && Listed(r.value)
      ensures Doings(docker.log) == Doings(old(docker.log)) + [Ordered(kind, name)] || (r.None? && Doings(docker.log) == Doings(old(docker.log)))
    {
      hide LookupFailed, LastLookupFailed, ActionsChecked, Doings, Attempts, NameFree, SoundList, Unique;
      var absent := docker.RequireAbsent(kind, name);
      LookupsStay(old(docker.log), docker.log);
      if !absent {
        return None;
      }
      ghost var before := docker.live;
      var done, found := docker.CreateAndFind(kind, name);
      CreatedSound(before, kind, name, found);
      assert containers + [] == containers && volumes + [] == volumes && images + [] == images;
      LookupsStay(old(docker.log), docker.log);
      LookupStaysFailed(docker.log, docker.log, kind, name);
      if found.Some? {
        Append(found.value);
      }
      r := if done then found else None;
    }

    // What is found under a name that was free is new, so it is not listed yet.
    lemma CreatedSound(before: set<Resource>, kind: Kind, name: string, r: Option<Owned>)
      requires docker.Valid() && before <= docker.live && NameFree(before, kind, name)
      requires r.Some? ==> && r.value.kind == kind && r.value.run == docker.run
                           && exists x :: x in docker.live && Names(x, kind, ByName(name)) && x.identity == r.value.identity && x.tag == docker.run
      ensures SoundList(before, containers, Container) ==> SoundList(docker.live, containers + NewIn(r, Container), Container)
      ensures SoundList(before, volumes, Volume) ==> SoundList(docker.live, volumes + NewIn(r, Volume), Volume)
      ensures SoundList(before, images, Image) ==> SoundList(docker.live, images + NewIn(r, Image), Image)
    {
      hide Docker.Valid, SoundList, Unique, NameFree;
      NewSound(before, kind, name, r, containers, Container);
      NewSound(before, kind, name, r, volumes, Volume);
      NewSound(before, kind, name, r, images, Image);
    }

    lemma NewSound(before: set<Resource>, kind: Kind, name: string, r: Option<Owned>, s: seq<Owned>, list: Kind)
      requires docker.Valid() && before <= docker.live && NameFree(before, kind, name)
      requires r.Some? ==> && r.value.kind == kind && r.value.run == docker.run
                           && exists x :: x in docker.live && Names(x, kind, ByName(name)) && x.identity == r.value.identity && x.tag == docker.run
      ensures SoundList(before, s, list) ==> SoundList(docker.live, s + NewIn(r, list), list)
    {
      if SoundList(before, s, list) {
        SoundGrows(before, docker.live, s, list);
        if r.Some? && kind == list {
          var x :| x in docker.live && Names(x, kind, ByName(name)) && x.identity == r.value.identity && x.tag == docker.run;
          assert Names(x, kind, ById(r.value.identity));
          assert Exists(docker.live, r.value);
          forall i | 0 <= i < |s| ensures s[i] != r.value {
          }
        }
        hide Exists, Docker.Valid;
      }
    }

    // Whether the resource is still there with the run's label.
    method RequireOwned(resource: Owned) returns (ok: bool)
      requires Valid() && resource.run == docker.run
      modifies docker`log
      ensures Valid() && old(docker.log) <= docker.log && |docker.log| == |old(docker.log)| + 1
      ensures OnlyCleanup(docker.log, |old(docker.log)|)
      ensures Attempts(docker.log) == Attempts(old(docker.log)) + [(resource.kind, resource.identity)]
      ensures Doings(docker.log) == Doings(old(docker.log))
      ensures AllWork(docker.env) && Exists(docker.live, resource) ==> ok
      ensures !ok && (exists x :: x in docker.live && Names(x, resource.kind, ById(resource.identity)) && x.tag == docker.run) ==>
                docker.log[|docker.log| - 1] == Inspected(resource.kind, ById(resource.identity), Failed)
      ensures ok ==> docker.log != [] && docker.log[|docker.log| - 1]
                     == Inspected(resource.kind, ById(resource.identity), Found(resource.identity, docker.run))
    {
      var observed := docker.FindOwned(resource.kind, ById(resource.identity));
      ok := observed == Some(resource);
    }

    method RemoveContainer(resource: Owned) returns (ok: bool)
      requires Valid() && resource.run == docker.run && resource.kind == Container
      modifies this`containers, docker`live, docker`log
      ensures Valid() && (old(Tracked()) ==> Tracked()) && (old(Accounted()) ==> Accounted())
      ensures old(docker.log) <= docker.log && Doings(docker.log) == Doings(old(docker.log)) && docker.live <= old(docker.live)
      ensures ok ==> Gone(docker.live, resource)
      ensures AllWork(docker.env) && old(Sound()) && resource in old(containers) ==> ok && Sound()
    {
      hide Docker.Valid, LookupFailed, Doings, Attempts, OnlyCleanup, Settled, SoundList, Exists, OthersStay;
      ListedExists(resource);
      ok := TryRemove(resource);
      LookupsStay(old(docker.log), docker.log);
      RemovalKeepsSound(old(docker.live), resource);
      if ok {
        RemovalKeepsTrack(resource);
        RemoveFirstMembers(containers, resource);
        containers := RemoveFirst(containers, resource);
      }
    }

    lemma ListedExists(resource: Owned)
      ensures Sound() && resource in containers ==> Exists(docker.live, resource)
    {
      hide Exists;
    }

    // Once a container is gone and off its list, what is left listed is as sound as before.
    lemma RemovalKeepsSound(before: set<Resource>, resource: Owned)
      requires Valid() && resource.kind == Container && resource.run == docker.run
      requires OthersStay(before, docker.live, [resource], docker.run)
      ensures SoundList(before, containers, Container) && SoundList(before, volumes, Volume) && SoundList(before, images, Image) ==>
                && SoundList(docker.live, RemoveFirst(containers, resource), Container)
                && SoundList(docker.live, volumes, Volume) && SoundList(docker.live, images, Image)
    {
      if SoundList(before, containers, Container) && SoundList(before, volumes, Volume) && SoundList(before, images, Image) {
        SoundWithout(before, containers, Container, resource);
        RemoveFirstMembers(containers, resource);
        hide Exists, Docker.Valid;
        SoundStays(before, docker.live, RemoveFirst(containers, resource), Container, [resource], docker.run);
        SoundStays(before, docker.live, volumes, Volume, [resource], docker.run);
        SoundStays(before, docker.live, images, Image, [resource], docker.run);
      }
    }

    lemma RemovalKeepsTrack(resource: Owned)
      ensures forall p :: p in containers && p != resource ==> p in RemoveFirst(containers, resource)
    {
      forall p | p in containers && p != resource ensures p in RemoveFirst(containers, resource) {
        RemoveFirstKeeps(containers, resource, p);
      }
    }

    lemma LookupsStay(log: seq<Entry>, more: seq<Entry>)
      requires log <= more
      ensures forall kind, name :: LookupFailed(log, kind, name) ==> LookupFailed(more, kind, name)
    {
      forall kind, name | LookupFailed(log, kind, name) ensures LookupFailed(more, kind, name) {
        LookupStaysFailed(log, more, kind, name);
      }
    }

    // Starts the container, waits for it and removes it.
    method RunContainer(resource: Owned) returns (ok: bool)
      requires Valid() && resource.run == docker.run && resource.kind == Container
      modifies this`containers, docker`live, docker`log
      ensures Valid() && (old(Tracked()) ==> Tracked()) && (old(Accounted()) ==> Accounted())
      ensures old(docker.log) <= docker.log
      ensures Doings(docker.log) == Doings(old(docker.log)) + [Ran] || (!ok && Doings(docker.log) == Doings(old(docker.log)))
      ensures ok ==> Gone(docker.live, resource)
      ensures docker.live <= old(docker.live)
      ensures AllWork(docker.env) && old(Sound()) && resource in old(containers) ==> ok && Sound()
    {
      hide Docker.Valid, LookupFailed, Doings, Attempts, SoundList, Exists;
      ListedExists(resource);
      ok := RequireOwned(resource);
      if ok {
        ok := docker.Start(resource.identity);
      }
      LookupsStay(old(docker.log), docker.log);
      if ok {
        ok := RemoveContainer(resource);
      }
    }

    method TryRemove(resource: Owned) returns (ok: bool)
      requires Valid() && resource.run == docker.run
      modifies docker`live, docker`log
      ensures Valid() && docker.live <= old(docker.live)
      ensures old(docker.log) <= docker.log && OnlyCleanup(docker.log, |old(docker.log)|)
      ensures Attempts(docker.log) == Attempts(old(docker.log)) + [(resource.kind, resource.identity)]
      ensures Doings(docker.log) == Doings(old(docker.log))
      ensures ok ==> Gone(docker.live, resource)
      ensures OthersStay(old(docker.live), docker.live, [resource], docker.run)
      ensures AllWork(docker.env) && Exists(old(docker.live), resource) ==> ok
      ensures Settled(docker.live, docker.log, |old(docker.log)|, docker.env, resource)
    {
      ok := RequireOwned(resource);
      if ok {
        ok := docker.Remove(resource.kind, resource.identity);
      }
    }

    // Last listed, first removed; a failure does not stop the ones after it.
    method RemoveAll(resources: seq<Owned>) returns (ok: bool)
      requires Valid() && forall o :: o in resources ==> o.run == docker.run
      modifies docker`live, docker`log
      ensures Valid() && docker.live <= old(docker.live)
      ensures old(docker.log) <= docker.log && OnlyCleanup(docker.log, |old(docker.log)|)
      ensures Attempts(docker.log) == Attempts(old(docker.log)) + Targets(Reversed(resources))
      ensures Doings(docker.log) == Doings(old(docker.log))
      ensures ok ==> AllGone(docker.live, resources)
      ensures AllSettled(docker.live, docker.log, |old(docker.log)|, docker.env, resources)
      ensures OthersStay(old(docker.live), docker.live, resources, docker.run)
      ensures forall kind :: AllWork(docker.env) && SoundList(old(docker.live), resources, kind) ==> ok
    {
      hide OthersStay, SoundList, AllWork, Exists;
      hide AllGone, Gone, Attempts, Targets, Reversed, Doings, AllSettled, Settled, OnlyCleanup, Docker.Valid, OfRun;
      ok := true;
      var i := |resources|;
      assert resources[..|resources|] == resources && resources[|resources|..] == [];
      NoneGone(docker.live);
      NoneSettled(docker.live, docker.log, |docker.log|, docker.env);
      CleanupStarts(docker.log);
      NoneGoes(docker.live, docker.run);
      while i > 0
        invariant 0 <= i <= |resources| && Valid() && docker.live <= old(docker.live)
        invariant old(docker.log) <= docker.log && OnlyCleanup(docker.log, |old(docker.log)|)
        invariant Attempts(docker.log) + Targets(Reversed(resources[..i])) == Attempts(old(docker.log)) + Targets(Reversed(resources))
        invariant Doings(docker.log) == Doings(old(docker.log))
        invariant ok ==> AllGone(docker.live, resources[i..])
        invariant AllSettled(docker.live, docker.log, |old(docker.log)|, docker.env, resources[i..])
        invariant OthersStay(old(docker.live), docker.live, resources[i..], docker.run)
        invariant forall kind :: AllWork(docker.env) && SoundList(old(docker.live), resources, kind) ==> ok
      {
        i := i - 1;
        ReversedTargets(resources, i);
        ghost var before, log, attempts := docker.live, docker.log, Attempts(docker.log);
        assert resources[i] in resources;
        StillExists(old(docker.live), docker.live, resources, i, docker.run);
        var removed := TryRemove(resources[i]);
        assert attempts + ([(resources[i].kind, resources[i].identity)] + Targets(Reversed(resources[..i])))
            == Attempts(docker.log) + Targets(Reversed(resources[..i]));
        ghost var start := |old(docker.log)|;
        CleanupGoesOn(log, docker.log, start);
        OneSettled(resources[i], |log|, start);
        SettledStays(before, docker.live, log, docker.log, start, start, docker.env, resources[i + 1..]);
        OneMoreSettled(docker.live, docker.log, start, docker.env, resources[i], resources[i + 1..]);
        OthersStayOn(old(docker.live), before, docker.live, resources[i + 1..], resources[i], docker.run);
        assert [resources[i]] + resources[i + 1..] == resources[i..];
        if ok && removed {
          GoneStays(before, docker.live, resources[i + 1..]);
          OneMoreGone(docker.live, resources[i], resources[i + 1..]);
        } else {
          ok := false;
        }
      }
      NothingLeft(resources);
      assert resources[0..] == resources;
    }

    lemma OneSettled(o: Owned, later: nat, start: nat)
      requires start <= later && Settled(docker.live, docker.log, later, docker.env, o)
      ensures Settled(docker.live, docker.log, start, docker.env, o)
    {
    }

    // Every listed resource is attempted: containers, then volumes, then images, each last first. What is
    // left of them is stuck.
    method Cleanup() returns (ok: bool)
      requires Valid()
      modifies this, docker`live, docker`log
      ensures Valid() && containers == [] && volumes == [] && images == [] && docker.live <= old(docker.live)
      ensures old(docker.log) <= docker.log && OnlyCleanup(docker.log, |old(docker.log)|)
      ensures Attempts(docker.log) == Attempts(old(docker.log)) + Targets(Reversed(old(containers)))
                                      + Targets(Reversed(old(volumes))) + Targets(Reversed(old(images)))
      ensures Doings(docker.log) == Doings(old(docker.log))
      ensures ok ==> AllGone(docker.live, old(containers)) && AllGone(docker.live, old(volumes)) && AllGone(docker.live, old(images))
      ensures AllWork(docker.env) && old(Sound()) ==> ok
      ensures var start := |old(docker.log)|;
              && AllSettled(docker.live, docker.log, start, docker.env, old(containers))
              && AllSettled(docker.live, docker.log, start, docker.env, old(volumes))
              && AllSettled(docker.live, docker.log, start, docker.env, old(images))
    {
      hide AllGone, Attempts, Targets, Reversed, Doings, AllSettled, OnlyCleanup, Docker.Valid, OthersStay, SoundList;
      ghost var start := |docker.log|;
      ghost var before := docker.live;
      var first := RemoveAll(containers);
      ghost var afterContainers, log1 := docker.live, docker.log;
      ListSound(before, afterContainers, volumes, Volume, containers, Container, docker.run);
      ListSound(before, afterContainers, images, Image, containers, Container, docker.run);
      var second := RemoveAll(volumes);
      ghost var afterVolumes, log2 := docker.live, docker.log;
      ListSound(afterContainers, afterVolumes, images, Image, volumes, Volume, docker.run);
      CleanupGoesOn(log1, log2, start);
      var third := RemoveAll(images);
      CleanupGoesOn(log2, docker.log, start);
      SettledStays(afterContainers, docker.live, log1, docker.log, start, start, docker.env, containers);
      SettledStays(afterVolumes, docker.live, log2, docker.log, start, |log1|, docker.env, volumes);
      SettledStays(docker.live, docker.live, docker.log, docker.log, start, |log2|, docker.env, images);
      ok := first && second && third;
      if ok {
        GoneStays(afterContainers, docker.live, containers);
        GoneStays(afterVolumes, docker.live, volumes);
      }
      containers, volumes, images := [], [], [];
    }
  }

  lemma CleanupStarts(log: seq<Entry>)
    ensures OnlyCleanup(log, |log|)
  {
  }

  // Everything listed is gone, so nothing that was tracked is left.
  lemma NothingCreatedIsLeft(created: set<Resource>, before: set<Resource>, after: set<Resource>, containers: seq<Owned>, volumes: seq<Owned>, images: seq<Owned>, run: string)
    requires forall r :: r in created && r in before ==>
               var o := Owned(r.kind, r.identity, run);
               match r.kind case Container => o in containers case Volume => o in volumes case Image => o in images
    requires AllGone(after, containers) && AllGone(after, volumes) && AllGone(after, images) && after <= before
    ensures forall r :: r in created ==> r !in after
  {
    forall r | r in created && r in before ensures r !in after {
      assert Gone(after, Owned(r.kind, r.identity, run));
    }
  }

  // The listed resources are settled, so what is left is stuck or could not be looked up.
  lemma OnlyStuck(created: set<Resource>, before: set<Resource>, after: set<Resource>, log: seq<Entry>, more: seq<Entry>, env: nat -> Outcome,
                  containers: seq<Owned>, volumes: seq<Owned>, images: seq<Owned>, run: string)
    requires forall r :: r in created && r in before ==>
               var o := Owned(r.kind, r.identity, run);
               || LookupFailed(log, r.kind, r.name)
               || match r.kind case Container => o in containers case Volume => o in volumes case Image => o in images
    requires forall r :: r in created ==> r.tag == run
    requires AllSettled(after, more, |log|, env, containers) && AllSettled(after, more, |log|, env, volumes) && AllSettled(after, more, |log|, env, images)
    requires after <= before && log <= more && OnlyCleanup(more, |log|)
    ensures OnlyStuckIsLeft(more, env, created * after)
  {
    hide OnlyCleanup, Stuck, LookupFailed;
    forall r | r in created * after ensures LookupFailed(more, r.kind, r.name) || Stuck(more, |log|, env, r.kind, r.identity) {
      LookupStaysFailed(log, more, r.kind, r.name);
      if !LookupFailed(log, r.kind, r.name) {
        assert Settled(after, more, |log|, env, Owned(r.kind, r.identity, run));
      }
    }
  }

  // What a whole run sets going, in this order: the destination is only created once the source container
  // has run.
  function VolumePlan(run: string): seq<Doing> {
    [Ordered(Image, run + ":local"), Ordered(Volume, run + "-source"), Ordered(Volume, run + "-backup")]
  }

  function SeedPlan(run: string): seq<Doing> { VolumePlan(run) + [Ordered(Container, run + "-source"), Ran] }

  function RestorePlan(run: string): seq<Doing> {
    [Ordered(Volume, run + "-destination"), Ordered(Container, run + "-restore"), Ran, Ordered(Container, run + "-verify"), Ran]
  }

  function Plan(run: string): seq<Doing> { SeedPlan(run) + RestorePlan(run) }

  // No resource has a name the plan is going to use.
  predicate NamesFree(live: set<Resource>, plan: seq<Doing>) {
    forall i :: 0 <= i < |plan| && plan[i].Ordered? ==> NameFree(live, plan[i].kind, plan[i].name)
  }

  lemma NamesDiffer(run: string)
    ensures var source, backup, destination := run + "-source", run + "-backup", run + "-destination";
            var restore, verify := run + "-restore", run + "-verify";
            && source != backup && source != destination && backup != destination
            && source != restore && source != verify && restore != verify
  {
    var n := |run| + 1;
    assert (run + "-source")[n] == 's' && (run + "-backup")[n] == 'b' && (run + "-destination")[n] == 'd';
    assert (run + "-restore")[n] == 'r' && (run + "-verify")[n] == 'v';
  }

  lemma SeedNames(live: set<Resource>, run: string)
    requires NamesFree(live, Plan(run))
    ensures NameFree(live, Image, run + ":local") && NameFree(live, Volume, run + "-source") && NameFree(live, Volume, run + "-backup")
    ensures NameFree(live, Container, run + "-source")
    ensures NameFree(live, Volume, run + "-destination") && NameFree(live, Container, run + "-restore") && NameFree(live, Container, run + "-verify")
  {
    hide NameFree;
    var p := Plan(run);
    assert p[0].Ordered? && p[1].Ordered? && p[2].Ordered? && p[3].Ordered? && p[5].Ordered? && p[6].Ordered? && p[8].Ordered?;
  }

  // What the second half of the run is going to use.
  predicate RestoreNamesFree(live: set<Resource>, run: string) {
    NameFree(live, Volume, run + "-destination") && NameFree(live, Container, run + "-restore") && NameFree(live, Container, run + "-verify")
  }

  lemma StillFree(before: set<Resource>, after: set<Resource>)
    requires after <= before
    ensures forall k, n :: NameFree(before, k, n) ==> NameFree(after, k, n)
  {
  }

  // Between two points of the log the plan was followed, to its end if all went well.
  predicate Did(before: seq<Entry>, after: seq<Entry>, plan: seq<Doing>, ok: bool) {
    Doings(after) <= Doings(before) + plan && (ok ==> Doings(after) == Doings(before) + plan)
  }

  // The run up to its first failure: the source is built and seeded, and then restored from its backup
  // into the destination.
  method Build(docker: Docker, ledger: Ledger) returns (ok: bool)
    requires ledger.docker == docker && ledger.Valid() && ledger.Tracked() && ledger.Accounted()
    modifies docker, ledger
    ensures ledger.Valid() && ledger.Accounted() && (ok ==> ledger.Tracked())
    ensures Did(old(docker.log), docker.log, Plan(docker.run), ok)
    ensures old(ledger.Sound()) && AllWork(docker.env) && NamesFree(old(docker.live), Plan(docker.run)) ==> ok && ledger.Sound()
  {
    hide NameFree, Ledger.Sound, AllWork, NamesFree, RestoreNamesFree, SeedPlan, RestorePlan;
    hide Docker.Valid, Ledger.Tracked, Ledger.Accounted, LookupFailed, LastLookupFailed, Doings;
    ok := Seed(docker, ledger);
    ghost var seeded := docker.log;
    if ok {
      ok := RestoreAndVerify(docker, ledger);
      OneAfterTheOther(old(docker.log), seeded, docker.log, SeedPlan(docker.run), RestorePlan(docker.run), ok);
    }
  }

  method Seed(docker: Docker, ledger: Ledger) returns (ok: bool)
    requires ledger.docker == docker && ledger.Valid() && ledger.Tracked() && ledger.Accounted()
    modifies docker, ledger
    ensures ledger.Valid() && ledger.Accounted() && (ok ==> ledger.Tracked())
    ensures Did(old(docker.log), docker.log, SeedPlan(docker.run), ok)
    ensures old(ledger.Sound()) && AllWork(docker.env) && NamesFree(old(docker.live), Plan(docker.run)) ==>
              ok && ledger.Sound() && RestoreNamesFree(docker.live, docker.run)
  {
    hide NameFree, Ledger.Sound, AllWork, Plan, NamesFree, VolumePlan;
    if NamesFree(docker.live, Plan(docker.run)) {
      SeedNames(docker.live, docker.run);
    }
    NamesDiffer(docker.run);
    hide Docker.Valid, Ledger.Tracked, Ledger.Accounted, LookupFailed, LastLookupFailed, Doings;
    ok := PrepareVolumes(docker, ledger);
    ghost var prepared := docker.log;
    if ok {
      ok := CreateAndRun(docker, ledger, docker.run + "-source");
      OneAfterTheOther(old(docker.log), prepared, docker.log, VolumePlan(docker.run), [Ordered(Container, docker.run + "-source"), Ran], ok);
    }
  }

  // The image, and the volumes of the source and of its backup.
  method PrepareVolumes(docker: Docker, ledger: Ledger) returns (ok: bool)
    requires ledger.docker == docker && ledger.Valid() && ledger.Tracked() && ledger.Accounted()
    modifies docker, ledger
    ensures ledger.Valid() && ledger.Accounted() && (ok ==> ledger.Tracked())
    ensures Did(old(docker.log), docker.log, VolumePlan(docker.run), ok)
    ensures var run := docker.run;
            old(ledger.Sound()) && AllWork(docker.env) && NameFree(old(docker.live), Image, run + ":local")
            && NameFree(old(docker.live), Volume, run + "-source") && NameFree(old(docker.live), Volume, run + "-backup") ==>
              ok && ledger.Sound()
    ensures forall k, n :: NameFree(old(docker.live), k, n) && !k.Image? && !(k.Volume? && n in {docker.run + "-source", docker.run + "-backup"}) ==>
              NameFree(docker.live, k, n)
  {
    hide NameFree, Ledger.Sound, AllWork;
    NamesDiffer(docker.run);
    hide Docker.Valid, Ledger.Tracked, Ledger.Accounted, LookupFailed, LastLookupFailed, Doings;
    var run := docker.run;
    ok := BuildImage(docker, ledger);
    if !ok {
      return;
    }
    ok := false;
    var source := ledger.CreateOwned(Volume, run + "-source");
    if source.None? {
      return;
    }
    var backup := ledger.CreateOwned(Volume, run + "-backup");
    ok := backup.Some?;
  }

  method RestoreAndVerify(docker: Docker, ledger: Ledger) returns (ok: bool)
    requires ledger.docker == docker && ledger.Valid() && ledger.Tracked() && ledger.Accounted()
    modifies docker, ledger
    ensures ledger.Valid() && ledger.Accounted() && (ok ==> ledger.Tracked())
    ensures Did(old(docker.log), docker.log, RestorePlan(docker.run), ok)
    ensures old(ledger.Sound()) && AllWork(docker.env) && RestoreNamesFree(old(docker.live), docker.run) ==> ok && ledger.Sound()
  {
    hide NameFree, Ledger.Sound, AllWork;
    NamesDiffer(docker.run);
    hide Docker.Valid, Ledger.Tracked, Ledger.Accounted, LookupFailed, LastLookupFailed, Doings;
    ok := false;
    var run := docker.run;
    var destination := ledger.CreateOwned(Volume, run + "-destination");
    if destination.None? {
      return;
    }
    var restored := CreateAndRun(docker, ledger, run + "-restore");
    if !restored {
      return;
    }
    ok := CreateAndRun(docker, ledger, run + "-verify");
  }

  method BuildImage(docker: Docker, ledger: Ledger) returns (ok: bool)
    requires ledger.docker == docker && ledger.Valid() && ledger.Tracked() && ledger.Accounted()
    modifies docker, ledger
    ensures ledger.Valid() && ledger.Accounted() && (ok ==> ledger.Tracked())
    ensures Did(old(docker.log), docker.log, [Ordered(Image, docker.run + ":local")], ok)
    ensures old(ledger.Sound()) && AllWork(docker.env) && NameFree(old(docker.live), Image, docker.run + ":local") ==> ok && ledger.Sound()
    ensures forall k, n :: NameFree(old(docker.live), k, n) && !k.Image? ==> NameFree(docker.live, k, n)
  {
    hide NameFree, Ledger.Sound, AllWork;
    hide Docker.Valid, Ledger.Tracked, Ledger.Accounted, LookupFailed, LastLookupFailed, Doings;
    ok := QueryEngine(docker, ledger);
    if ok {
      var image := ledger.CreateOwned(Image, docker.run + ":local");
      ok := image.Some?;
    }
  }

  lemma OneAfterTheOther(before: seq<Entry>, between: seq<Entry>, after: seq<Entry>, first: seq<Doing>, second: seq<Doing>, ok: bool)
    requires Did(before, between, first, true) && Did(between, after, second, ok)
    ensures Did(before, after, first + second, ok)
  {
    hide Doings;
    assert Doings(before) + first + second == Doings(before) + (first + second);
  }

  method QueryEngine(docker: Docker, ledger: Ledger) returns (ok: bool)
    requires ledger.docker == docker && ledger.Valid()
    modifies docker`log
    ensures ledger.Valid() && (old(ledger.Tracked()) ==> ledger.Tracked()) && (old(ledger.Accounted()) ==> ledger.Accounted())
    ensures Doings(docker.log) == Doings(old(docker.log))
    ensures old(ledger.Sound()) ==> ledger.Sound()
    ensures AllWork(docker.env) ==> ok
  {
    ok := docker.Query();
    ledger.LookupsStay(old(docker.log), docker.log);
  }

  method CreateAndRun(docker: Docker, ledger: Ledger, name: string) returns (ok: bool)
    requires ledger.docker == docker && ledger.Valid()
    modifies docker, ledger
    ensures ledger.Valid() && (old(ledger.Tracked()) && ok ==> ledger.Tracked()) && (old(ledger.Accounted()) ==> ledger.Accounted())
    ensures Doings(docker.log) <= Doings(old(docker.log)) + [Ordered(Container, name), Ran]
    ensures ok ==> Doings(docker.log) == Doings(old(docker.log)) + [Ordered(Container, name), Ran]
    ensures old(ledger.Sound()) && AllWork(docker.env) && NameFree(old(docker.live), Container, name) ==> ok && ledger.Sound()
    ensures forall k, n :: NameFree(old(docker.live), k, n) && !(k == Container && n == name) ==> NameFree(docker.live, k, n)
  {
    hide NameFree, Ledger.Sound, AllWork;
    hide Docker.Valid, Ledger.Tracked, Ledger.Accounted, LookupFailed, LastLookupFailed, Doings;
    var container := ledger.CreateOwned(Container, name);
    if container.None? {
      return false;
    }
    ghost var before := docker.live;
    ok := ledger.RunContainer(container.value);
    StillFree(before, docker.live);
  }

  // Whatever fails, every start and removal was checked first, the run set going no more than its plan, and
  // what it created and still exists is stuck; when the drill returns normally the plan was followed to
  // its end and nothing it created exists any more. Where every command works and the names are free, it
  // does return normally.
  method RunDockerSmoke(docker: Docker) returns (ok: bool)
    requires docker.Valid() && docker.created == {}
    modifies docker
    ensures docker.Valid() && ActionsChecked(docker.log, docker.run)
    ensures OnlyStuckIsLeft(docker.log, docker.env, docker.created * docker.live)
    ensures Did(old(docker.log), docker.log, Plan(docker.run), ok)
    ensures ok ==> forall r :: r in docker.created ==> r !in docker.live
    ensures AllWork(docker.env) && NamesFree(old(docker.live), Plan(docker.run)) ==> ok
  {
    hide AllWork, NamesFree, SoundList;
    hide AllSettled, OnlyStuckIsLeft, OnlyCleanup, LookupFailed, Doings, Attempts, Plan, ActionsChecked, AllGone;
    var ledger := new Ledger(docker);
    var built := Build(docker, ledger);
    ghost var before, log := docker.live, docker.log;
    ghost var containers, volumes, images := ledger.containers, ledger.volumes, ledger.images;
    var cleaned := ledger.Cleanup();
    OnlyStuck(docker.created, before, docker.live, log, docker.log, docker.env, containers, volumes, images, docker.run);
    ok := built && cleaned;
    if ok {
      NothingCreatedIsLeft(docker.created, before, docker.live, containers, volumes, images, docker.run);
    }
  }

  lemma ReversedTargets(s: seq<Owned>, i: nat)
    requires i < |s|
    ensures Targets(Reversed(s[..i + 1])) == [(s[i].kind, s[i].identity)] + Targets(Reversed(s[..i]))
  {
    assert s[..i + 1][..i] == s[..i];
    var rest := Reversed(s[..i]);
    assert Reversed(s[..i + 1]) == [s[i]] + rest;
    assert Targets([s[i]] + rest) == [(s[i].kind, s[i].identity)] + Targets(rest);
  }

  lemma NothingLeft(s: seq<Owned>)
    ensures Targets(Reversed(s[..0])) == []
  {
  }

  lemma NoneGone(live: set<Resource>)
    ensures AllGone(live, [])
  {
  }
}
