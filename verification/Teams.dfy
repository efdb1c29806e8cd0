/** Teams (app/team_store.py, app/team_admin.py): one current row per team and an append-only
    history, changed only against the revision the caller read. */
module Teams {
  import opened LedgerModel

  type Name = nat
  type Doc = nat

  datatype TeamState = Active | Archived

  datatype Team = Team(
    revision: nat, state: TeamState, doc: Doc, createdAt: Time, createdBy: Actor, updatedAt: Time, updatedBy: Actor)

  /** A row of `team_revisions`; rows are only ever added. */
  datatype Revision = Revision(name: Name, number: nat, actor: Actor, at: Time, state: TeamState, doc: Doc)

  /** What the checks of a document found: whether there are errors, and the warning codes. */
  datatype Review = Review(errors: bool, warnings: set<nat>)

  datatype Why =
    | TeamExists | TeamNotFound | IfMatchRequired | RevisionStale | TeamInvalid | WarningsNotAcknowledged
    | TeamUnchanged | RevisionNotFound | AlreadyArchived | TeamHasResources | NotArchived | ExpectedRequired
  datatype Result = Written(team: Team) | Refused(why: Why)

  // ----- The history of one team -----

  function Of(log: seq<Revision>, name: Name): seq<Revision> {
    if log == [] then []
    else
      var last := log[|log| - 1];
      Of(log[..|log| - 1], name) + if last.name == name then [last] else []
  }

  lemma {:induction false} OfNext(log: seq<Revision>, entry: Revision, name: Name)
    ensures Of(log + [entry], name) == Of(log, name) + if entry.name == name then [entry] else []
  {
    assert (log + [entry])[..|log|] == log;
  }

  /** Revisions are numbered 1..n, and the current row is revision n. */
  ghost predicate TeamSound(teams: map<Name, Team>, log: seq<Revision>, name: Name) {
    var history := Of(log, name);
    && (name in teams <==> history != [])
    && (forall i :: 0 <= i < |history| ==> history[i].number == i + 1 && history[i].name == name)
    && (name in teams ==> Matches(teams[name], history))
  }

  predicate Matches(team: Team, history: seq<Revision>) {
    history != []
    && (var first, last := history[0], history[|history| - 1];
        && team.revision == |history| && team.state == last.state && team.doc == last.doc
        && team.updatedAt == last.at && team.updatedBy == last.actor
        && team.createdAt == first.at && team.createdBy == first.actor)
  }

  ghost predicate Sound(teams: map<Name, Team>, log: seq<Revision>) {
    forall name {:trigger TeamSound(teams, log, name)} :: TeamSound(teams, log, name)
  }

  /** Timestamps of a team never go back. */
  predicate InOrder(history: seq<Revision>) {
    forall i, j :: 0 <= i < j < |history| ==> history[i].at <= history[j].at
  }

  // ----- The current archived run -----

  /** `max(revision)` of those not archived, 0 when there is none. */
  function LastActive(history: seq<Revision>): nat {
    if history == [] then 0
    else if history[|history| - 1].state.Active? then history[|history| - 1].number
    else LastActive(history[..|history| - 1])
  }

  /** `min(at)` of the revisions after `number`. */
  function EarliestAfter(history: seq<Revision>, number: nat): Option<Time> {
    if history == [] then None
    else
      var last := history[|history| - 1];
      var earlier := EarliestAfter(history[..|history| - 1], number);
      if last.number <= number then earlier
      else if earlier.None? || last.at < earlier.value then Some(last.at) else earlier
  }

  /** `archived_since`. */
  function ArchivedSince(teams: map<Name, Team>, log: seq<Revision>, name: Name): Option<Time> {
    if name !in teams || !teams[name].state.Archived? then None
    else EarliestAfter(Of(log, name), LastActive(Of(log, name)))
  }

  /** The first revision of the archived run that ends the history. */
  function RunStart(history: seq<Revision>): nat {
    if history == [] || history[|history| - 1].state.Active? then |history|
    else RunStart(history[..|history| - 1])
  }

  lemma {:induction false} RunStartIs(history: seq<Revision>)
    ensures var k := RunStart(history);
            k <= |history| && (forall i :: k <= i < |history| ==> history[i].state.Archived?)
            && (0 < k ==> history[k - 1].state.Active?)
  {
    if history != [] && history[|history| - 1].state.Archived? { RunStartIs(history[..|history| - 1]); }
  }

  lemma {:induction false} LastActiveIs(history: seq<Revision>)
    requires forall i :: 0 <= i < |history| ==> history[i].number == i + 1
    ensures LastActive(history) == RunStart(history)
  {
    if history != [] && history[|history| - 1].state.Archived? { LastActiveIs(history[..|history| - 1]); }
  }

  lemma {:induction false} EarliestIs(history: seq<Revision>, k: nat)
    requires forall i :: 0 <= i < |history| ==> history[i].number == i + 1
    requires InOrder(history) && k <= |history|
    ensures EarliestAfter(history, k) == if k < |history| then Some(history[k].at) else None
  {
    var n := |history| - 1;
    if history != [] {
      if k <= n { EarliestIs(history[..n], k); } else { NoneAfter(history, k); }
    }
  }

  lemma {:induction false} NoneAfter(history: seq<Revision>, k: nat)
    requires forall i :: 0 <= i < |history| ==> history[i].number <= k
    ensures EarliestAfter(history, k).None?
  {
    if history != [] { NoneAfter(history[..|history| - 1], k); }
  }

  /** With timestamps in order, `archived_since` is when the current archived run began: the first
      archived revision after the last active one. */
  lemma {:induction false} SinceIsRunStart(teams: map<Name, Team>, log: seq<Revision>, name: Name)
    requires Sound(teams, log) && InOrder(Of(log, name))
    ensures var history := Of(log, name);
            var k := RunStart(history);
            && (ArchivedSince(teams, log, name).Some? <==> name in teams && teams[name].state.Archived?)
            && (ArchivedSince(teams, log, name).Some? ==>
                  k < |history| && ArchivedSince(teams, log, name).value == history[k].at
                  && (forall i :: k <= i < |history| ==> history[i].state.Archived?)
                  && (0 < k ==> history[k - 1].state.Active?))
  {
    assert TeamSound(teams, log, name);
    var history := Of(log, name);
    RunStartIs(history);
    LastActiveIs(history);
    EarliestIs(history, RunStart(history));
  }

  lemma {:induction false} RunStartNext(history: seq<Revision>, entry: Revision)
    ensures RunStart(history + [entry])
            == if entry.state.Active? then |history| + 1
               else if history != [] && history[|history| - 1].state.Archived? then RunStart(history)
               else |history|
  {
    assert (history + [entry])[..|history|] == history;
  }

  /** What one more revision does to `archived_since`: archiving starts a run now, an edit while
      archived leaves the start where it was, and unarchiving ends it. */
  lemma {:induction false} SinceAfterWrite(teams: map<Name, Team>, log: seq<Revision>, after: map<Name, Team>,
                                           entry: Revision, name: Name)
    requires Sound(teams, log) && Sound(after, log + [entry])
    requires InOrder(Of(log + [entry], name))
    ensures ArchivedSince(after, log + [entry], name)
            == if entry.name != name then ArchivedSince(teams, log, name)
               else if entry.state.Active? then None
               else if name in teams && teams[name].state.Archived? then ArchivedSince(teams, log, name)
               else Some(entry.at)
  {
    hide Of, EarliestAfter, LastActive, RunStart, InOrder;
    assert TeamSound(teams, log, name) && TeamSound(after, log + [entry], name);
    OfNext(log, entry, name);
    var history := Of(log, name);
    if entry.name == name {
      assert (history + [entry])[..|history|] == history;
      EarlierInOrder(history, entry);
      RunStartNext(history, entry);
      SinceIsRunStart(teams, log, name);
      SinceIsRunStart(after, log + [entry], name);
    } else {
      assert Of(log + [entry], name) == history;
    }
  }

  lemma EarlierInOrder(history: seq<Revision>, entry: Revision)
    requires InOrder(history + [entry])
    ensures InOrder(history)
  {
    forall i, j | 0 <= i < j < |history| ensures history[i].at <= history[j].at {
      assert (history + [entry])[i] == history[i] && (history + [entry])[j] == history[j];
    }
  }

  // ----- Reading what was read -----

  /** The history only grew. */
  ghost predicate Extends(before: seq<Revision>, after: seq<Revision>) {
    |before| <= |after| && after[..|before|] == before
  }

  lemma {:induction false} OfExtends(before: seq<Revision>, after: seq<Revision>, name: Name)
    requires Extends(before, after)
    ensures Extends(Of(before, name), Of(after, name))
  {
    if |after| > |before| {
      var n := |after| - 1;
      assert after[..n][..|before|] == before;
      OfExtends(before, after[..n], name);
    } else {
      assert before == after;
    }
  }

  /** If the current revision has the number that was read, then, whatever was written in between
      to whatever team, the row is the very row that was read: a write that matches it overwrites
      nothing unseen. */
  lemma {:induction false} NothingUnseen(teams: map<Name, Team>, log: seq<Revision>, later: map<Name, Team>,
                                         laterLog: seq<Revision>, name: Name)
    requires Sound(teams, log) && Sound(later, laterLog) && Extends(log, laterLog)
    requires name in teams && name in later && later[name].revision == teams[name].revision
    ensures later[name] == teams[name] && Of(laterLog, name) == Of(log, name)
  {
    hide Of, Matches;
    assert TeamSound(teams, log, name) && TeamSound(later, laterLog, name);
    OfExtends(log, laterLog, name);
    Counted(teams[name], Of(log, name));
    Counted(later[name], Of(laterLog, name));
    assert Of(laterLog, name)[..|Of(log, name)|] == Of(laterLog, name);
    OneMatch(teams[name], later[name], Of(log, name));
  }

  lemma Counted(team: Team, history: seq<Revision>)
    requires Matches(team, history)
    ensures team.revision == |history|
  {
  }

  lemma OneMatch(a: Team, b: Team, history: seq<Revision>)
    requires Matches(a, history) && Matches(b, history)
    ensures a == b
  {
  }

  /** Adding the next revision and its row keeps every team sound. */
  lemma WriteKeepsSound(teams: map<Name, Team>, log: seq<Revision>, team: Team, entry: Revision)
    requires Sound(teams, log)
    requires var name := entry.name;
             && entry.number == (if name in teams then teams[name].revision + 1 else 1) == team.revision
             && team.state == entry.state && team.doc == entry.doc && team.updatedAt == entry.at
             && team.updatedBy == entry.actor
             && team.createdAt == (if name in teams then teams[name].createdAt else entry.at)
             && team.createdBy == (if name in teams then teams[name].createdBy else entry.actor)
    ensures Sound(teams[entry.name := team], log + [entry])
  {
    hide Of;
    var teams1, log1 := teams[entry.name := team], log + [entry];
    forall other ensures TeamSound(teams1, log1, other) {
      assert TeamSound(teams, log, other);
      OfNext(log, entry, other);
    }
  }

  // ----- Checks before a write -----

  /** `_gate`. */
  function Gate(review: Review, acknowledged: set<nat>): Option<Why> {
    if review.errors then Some(TeamInvalid)
    else if !(review.warnings <= acknowledged) then Some(WarningsNotAcknowledged)
    else None
  }

  // ----- Imports -----

  datatype Entry = Entry(name: Name, doc: Doc, review: Review)

  predicate Changing(teams: map<Name, Team>, entry: Entry) {
    !(entry.name in teams && teams[entry.name].doc == entry.doc)
  }

  /** `_check_expected`, for one team. */
  function Unexpected(teams: map<Name, Team>, expected: map<Name, Option<nat>>, entry: Entry): Option<Why> {
    if entry.name !in teams then None
    else if entry.name !in expected then
      if Changing(teams, entry) then Some(ExpectedRequired) else None
    else if expected[entry.name] != Some(teams[entry.name].revision) then Some(RevisionStale)
    else None
  }

  /** The caller knows the team as it is: its revision was named, or nothing is to be written and no
      revision was named, or it is new. */
  predicate AsExpected(teams: map<Name, Team>, expected: map<Name, Option<nat>>, entry: Entry) {
    entry.name in teams ==>
      if entry.name in expected then expected[entry.name] == Some(teams[entry.name].revision)
      else teams[entry.name].doc == entry.doc
  }

  /** What an import makes of one team. */
  ghost predicate Imported(before: map<Name, Team>, after: map<Name, Team>, entry: Entry) {
    && entry.name in after
    && (if !Changing(before, entry) then entry.name in before && after[entry.name] == before[entry.name]
        else
          && after[entry.name].doc == entry.doc
          && after[entry.name].revision == (if entry.name in before then before[entry.name].revision + 1 else 1)
          && after[entry.name].state == (if entry.name in before then before[entry.name].state else Active))
  }

  predicate NamesApart(entries: seq<Entry>) {
    forall i, j :: 0 <= i < j < |entries| ==> entries[i].name != entries[j].name
  }

  predicate InEntries(entries: seq<Entry>, name: Name) {
    exists i :: 0 <= i < |entries| && entries[i].name == name
  }

  class TeamStore {
    var teams: map<Name, Team>
    var log: seq<Revision>

    ghost predicate Valid()
      reads this
    {
      Sound(teams, log)
    }

    constructor ()
      ensures Valid() && teams == map[] && log == []
    {
      teams, log := map[], [];
    }

    /** One more revision of `name`, which is now the current row; everything else as it was. */
    twostate predicate Wrote(actor: Actor, name: Name, doc: Doc, state: TeamState, t: Time)
      reads this
    {
      var number := if name in old(teams) then old(teams)[name].revision + 1 else 1;
      && log == old(log) + [Revision(name, number, actor, t, state, doc)]
      && name in teams
      && teams == old(teams)[name := teams[name]]
      && teams[name].revision == number && teams[name].doc == doc && teams[name].state == state
    }

    /** `write`: the new current row and its revision, against the row the caller read. */
    method Write(actor: Actor, name: Name, doc: Doc, state: TeamState, previous: Option<Team>, t: Time)
      returns (team: Team)
      requires Valid() && previous == if name in teams then Some(teams[name]) else None
      modifies this
      ensures Valid() && Wrote(actor, name, doc, state, t) && team == teams[name]
    {
      hide Sound;
      var number := (if previous.Some? then previous.value.revision else 0) + 1;
      if previous.Some? {
        team := previous.value.(revision := number, state := state, doc := doc, updatedAt := t, updatedBy := actor);
      } else {
        team := Team(number, state, doc, t, actor, t, actor);
      }
      WriteKeepsSound(teams, log, team, Revision(name, number, actor, t, state, doc));
      teams := teams[name := team];
      log := log + [Revision(name, number, actor, t, state, doc)];
    }

    /** `_stored`: the current row, when the request names its revision. An unreadable number is
        never a revision. */
    method Stored(name: Name, ifMatch: Option<int>) returns (stored: Option<Team>, why: Why)
      ensures stored.Some? <==> ifMatch.Some? && name in teams && ifMatch.value == teams[name].revision
      ensures stored.Some? ==> stored.value == teams[name]
      ensures stored.None? ==>
        why == if ifMatch.None? then IfMatchRequired else if name !in teams then TeamNotFound else RevisionStale
    {
      if ifMatch.None? { return None, IfMatchRequired; }
      if name !in teams { return None, TeamNotFound; }
      if ifMatch.value != teams[name].revision { return None, RevisionStale; }
      return Some(teams[name]), RevisionStale;
    }

    method Create(actor: Actor, name: Name, doc: Doc, review: Review, t: Time) returns (result: Result)
      requires Valid()
      modifies this
      ensures Valid()
      ensures result.Refused? <==> name in old(teams) || review.errors
      ensures result.Refused? ==> result.why == if name in old(teams) then TeamExists else TeamInvalid
      ensures result.Refused? ==> teams == old(teams) && log == old(log)
      ensures result.Written? ==> Wrote(actor, name, doc, Active, t) && result.team == teams[name]
    {
      if name in teams { return Refused(TeamExists); }
      if review.errors { return Refused(TeamInvalid); }
      var team := Write(actor, name, doc, Active, None, t);
      result := Written(team);
    }

    /** `replace`: refused unless the caller names the current revision; then exactly one revision,
        right after the one that was read, keeping the team's state. */
    method Replace(actor: Actor, name: Name, doc: Doc, review: Review, acknowledged: set<nat>, ifMatch: Option<int>,
                   t: Time) returns (result: Result)
      requires Valid()
      modifies this
      ensures Valid()
      ensures result.Written? <==> ifMatch.Some? && name in old(teams) && ifMatch.value == old(teams)[name].revision
                                   && !review.errors && review.warnings <= acknowledged
                                   && old(teams)[name].doc != doc
      ensures result.Refused? ==> teams == old(teams) && log == old(log)
      ensures result.Refused? && ifMatch.Some? && name in old(teams) && ifMatch.value == old(teams)[name].revision ==>
        result.why == if review.errors then TeamInvalid
                      else if !(review.warnings <= acknowledged) then WarningsNotAcknowledged else TeamUnchanged
      ensures result.Written? ==>
        Wrote(actor, name, doc, old(teams)[name].state, t) && result.team == teams[name]
        && teams[name].revision == ifMatch.value + 1
    {
      var stored, why := Stored(name, ifMatch);
      if stored.None? { return Refused(why); }
      var problem := Gate(review, acknowledged);
      if problem.Some? { return Refused(problem.value); }
      if stored.value.doc == doc { return Refused(TeamUnchanged); }
      var team := Write(actor, name, doc, stored.value.state, stored, t);
      result := Written(team);
    }

    /** `team_store.revision`. */
    method Find(name: Name, number: nat) returns (found: Option<Revision>)
      ensures found.Some? ==> found.value in log && found.value.name == name && found.value.number == number
      ensures found.None? ==> forall entry :: entry in log ==> !(entry.name == name && entry.number == number)
    {
      for i := 0 to |log|
        invariant forall k :: 0 <= k < i ==> !(log[k].name == name && log[k].number == number)
      {
        if log[i].name == name && log[i].number == number { return Some(log[i]); }
      }
      found := None;
    }

    /** `revert`: a new revision with an old one's document; the old one stays where it is. */
    method Revert(actor: Actor, name: Name, number: nat, review: Review, acknowledged: set<nat>,
                  ifMatch: Option<int>, t: Time) returns (result: Result)
      requires Valid()
      modifies this
      ensures Valid()
      ensures result.Refused? ==> teams == old(teams) && log == old(log)
      ensures result.Written? <==>
        && ifMatch.Some? && name in old(teams) && ifMatch.value == old(teams)[name].revision
        && 1 <= number <= |Of(old(log), name)| && !review.errors && review.warnings <= acknowledged
        && old(teams)[name].doc != Of(old(log), name)[number - 1].doc
      ensures result.Written? ==>
        && Wrote(actor, name, Of(old(log), name)[number - 1].doc, old(teams)[name].state, t)
        && teams[name].revision == ifMatch.value + 1 && result.team == teams[name]
    {
      var stored, why := Stored(name, ifMatch);
      if stored.None? { return Refused(why); }
      var target := Find(name, number);
      NumbersOf(teams, log, name);
      if target.None? {
        if 1 <= number <= |Of(log, name)| { OfIsListed(log, name, Of(log, name)[number - 1]); }
        return Refused(RevisionNotFound);
      }
      ListedIsOf(log, target.value);
      var problem := Gate(review, acknowledged);
      if problem.Some? { return Refused(problem.value); }
      if stored.value.doc == target.value.doc { return Refused(TeamUnchanged); }
      var team := Write(actor, name, target.value.doc, stored.value.state, stored, t);
      result := Written(team);
    }

    method Archive(actor: Actor, name: Name, live: nat, force: bool, ifMatch: Option<int>, t: Time)
      returns (result: Result)
      requires Valid()
      modifies this
      ensures Valid()
      ensures result.Written? <==> ifMatch.Some? && name in old(teams) && ifMatch.value == old(teams)[name].revision
                                   && old(teams)[name].state.Active? && (live == 0 || force)
      ensures result.Refused? ==> teams == old(teams) && log == old(log)
      ensures result.Written? ==> Wrote(actor, name, old(teams)[name].doc, Archived, t)
    {
      var stored, why := Stored(name, ifMatch);
      if stored.None? { return Refused(why); }
      if stored.value.state.Archived? { return Refused(AlreadyArchived); }
      if live > 0 && !force { return Refused(TeamHasResources); }
      var team := Write(actor, name, stored.value.doc, Archived, stored, t);
      result := Written(team);
    }

    method Unarchive(actor: Actor, name: Name, review: Review, ifMatch: Option<int>, t: Time) returns (result: Result)
      requires Valid()
      modifies this
      ensures Valid()
      ensures result.Written? <==> ifMatch.Some? && name in old(teams) && ifMatch.value == old(teams)[name].revision
                                   && old(teams)[name].state.Archived? && !review.errors
      ensures result.Refused? ==> teams == old(teams) && log == old(log)
      ensures result.Written? ==> Wrote(actor, name, old(teams)[name].doc, Active, t)
    {
      var stored, why := Stored(name, ifMatch);
      if stored.None? { return Refused(why); }
      if stored.value.state.Active? { return Refused(NotArchived); }
      if review.errors { return Refused(TeamInvalid); }
      var team := Write(actor, name, stored.value.doc, Active, stored, t);
      result := Written(team);
    }

    /** `import_teams` with `apply`: every team is checked against the stored ones before any is
        written; then every changed team gets one revision, against the revision the dry run saw. */
    method ImportTeams(actor: Actor, entries: seq<Entry>, file: Review, expected: map<Name, Option<nat>>,
                       acknowledged: set<nat>, t: Time) returns (problem: Option<Why>)
      requires Valid() && NamesApart(entries)
      modifies this
      ensures Valid() && Extends(old(log), log)
      ensures problem.Some? ==> teams == old(teams) && log == old(log)
      ensures problem.None? <==>
        && !file.errors && file.warnings <= acknowledged
        && (forall i :: 0 <= i < |entries| ==>
              AsExpected(old(teams), expected, entries[i])
              && (Changing(old(teams), entries[i]) ==>
                    !entries[i].review.errors && entries[i].review.warnings <= acknowledged))
      ensures problem.None? ==>
        && (forall i :: 0 <= i < |entries| ==> Imported(old(teams), teams, entries[i]))
        && (forall name :: !InEntries(entries, name) ==>
              (name in teams <==> name in old(teams)) && (name in teams ==> teams[name] == old(teams)[name]))
    {
      for i := 0 to |entries|
        invariant forall k :: 0 <= k < i ==> Unexpected(teams, expected, entries[k]).None?
      {
        var why := Unexpected(teams, expected, entries[i]);
        if why.Some? { return why; }
      }
      if file.errors { return Some(TeamInvalid); }
      var failing, unmet := false, !(file.warnings <= acknowledged);
      for i := 0 to |entries|
        invariant !failing && !unmet <==>
          file.warnings <= acknowledged
          && forall k :: 0 <= k < i && Changing(teams, entries[k]) ==>
               !entries[k].review.errors && entries[k].review.warnings <= acknowledged
      {
        if Changing(teams, entries[i]) {
          failing := failing || entries[i].review.errors;
          unmet := unmet || !(entries[i].review.warnings <= acknowledged);
        }
      }
      if failing { return Some(TeamInvalid); }
      if unmet { return Some(WarningsNotAcknowledged); }
      WriteAll(actor, entries, t);
      problem := None;
    }

    /** The writes of an import. */
    method WriteAll(actor: Actor, entries: seq<Entry>, t: Time)
      requires Valid() && NamesApart(entries)
      modifies this
      ensures Valid() && Extends(old(log), log)
      ensures forall i :: 0 <= i < |entries| ==> Imported(old(teams), teams, entries[i])
      ensures forall name :: !InEntries(entries, name) ==>
        (name in teams <==> name in old(teams)) && (name in teams ==> teams[name] == old(teams)[name])
    {
      hide Sound;
      for i := 0 to |entries|
        invariant Valid() && Extends(old(log), log)
        invariant forall k :: 0 <= k < i ==> Imported(old(teams), teams, entries[k])
        invariant forall name :: !InEntries(entries[..i], name) ==>
          (name in teams <==> name in old(teams)) && (name in teams ==> teams[name] == old(teams)[name])
      {
        var entry := entries[i];
        assert !InEntries(entries[..i], entry.name);
        forall name ensures InEntries(entries[..i + 1], name) <==> InEntries(entries[..i], name) || name == entry.name {
          assert entries[..i + 1][i] == entry;
          assert forall k :: 0 <= k < i ==> entries[..i + 1][k] == entries[..i][k];
        }
        if Changing(teams, entry) {
          var stored := if entry.name in teams then Some(teams[entry.name]) else None;
          var state := if stored.Some? then stored.value.state else Active;
          var team := Write(actor, entry.name, entry.doc, state, stored, t);
        }
      }
      assert entries[..|entries|] == entries;
    }

    /** `team_store.revisions`: a team's revisions before a number, newest first. */
    method Revisions(name: Name, before: Option<nat>, limit: nat) returns (page: seq<Revision>)
      requires Valid()
      ensures var history := Of(log, name);
              var top := if before.None? || before.value > |history| then |history|
                         else if before.value == 0 then 0 else before.value - 1;
              && |page| == (if top < limit then top else limit)
              && forall i :: 0 <= i < |page| ==> page[i] == history[top - 1 - i]
    {
      hide Of, Sound;
      page := [];
      NumbersOf(teams, log, name);
      ghost var history := Of(log, name);
      ghost var top: nat := if before.None? || before.value > |history| then |history|
                       else if before.value == 0 then 0 else before.value - 1;
      var i := |log|;
      ghost var left: nat := |history|;
      assert log[..i] == log;
      while i > 0 && |page| < limit
        invariant 0 <= i <= |log| && left <= |history| && Of(log[..i], name) == history[..left]
        invariant |page| == (if left < top then top - left else 0) && |page| <= limit && |page| <= top
        invariant forall k :: 0 <= k < |page| ==> page[k] == history[top - 1 - k]
      {
        i := i - 1;
        assert log[..i + 1] == log[..i] + [log[i]];
        OfNext(log[..i], log[i], name);
        if log[i].name == name {
          LastOf(history, left, Of(log[..i], name), log[i]);
          left := left - 1;
          if before.None? || log[i].number < before.value { page := page + [log[i]]; }
        }
      }
      if i == 0 { NoneListed(name); assert log[..0] == []; }
    }
  }

  lemma {:induction false} NumbersOf(teams: map<Name, Team>, log: seq<Revision>, name: Name)
    requires Sound(teams, log)
    ensures forall i :: 0 <= i < |Of(log, name)| ==> Of(log, name)[i].number == i + 1
  {
    assert TeamSound(teams, log, name);
  }

  lemma LastOf(history: seq<Revision>, left: nat, earlier: seq<Revision>, entry: Revision)
    requires left <= |history| && earlier + [entry] == history[..left]
    ensures left > 0 && entry == history[left - 1] && earlier == history[..left - 1]
  {
    assert history[..left][left - 1] == entry;
    assert (earlier + [entry])[..|earlier|] == earlier;
  }

  lemma {:induction false} NoneListed(name: Name)
    ensures Of([], name) == []
  {
  }

  lemma {:induction false} OfIsListed(log: seq<Revision>, name: Name, entry: Revision)
    requires entry in Of(log, name)
    ensures entry in log && entry.name == name
  {
    var n := |log| - 1;
    if !(log[n].name == name && entry == log[n]) { OfIsListed(log[..n], name, entry); }
  }

  lemma {:induction false} ListedIsOf(log: seq<Revision>, entry: Revision)
    requires entry in log
    ensures entry in Of(log, entry.name)
  {
    var n := |log| - 1;
    if log[n] != entry {
      ListedIsOf(log[..n], entry);
    }
  }
}
