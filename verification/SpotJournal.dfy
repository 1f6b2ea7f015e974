/**
 The write-ahead journal: how records chain, what a recovery accepts, and why
 recovering from a checkpoint is the same as never having stopped.
 */
module SpotJournal {
  import opened Wrappers
  import opened SpotTypes
  import opened SpotEngine

  /** The record that commits `candidate` on top of `head`. */
  function RecordFor(head: State, candidate: State, kind: Kind): Record {
    var unsigned := Unsigned(candidate.binding.sessionId, head.journalSequence + 1, head.journalSha, kind, candidate);
    Record(unsigned, Sha(unsigned))
  }

  /** A document restored under a record takes that record's place in the chain. */
  function Commit(r: Record): State {
    r.unsigned.doc.(journalSequence := r.unsigned.sequence, journalSha := r.sha)
  }

  /** `restore_spot_state`: a document of this binding that the engine accepts. */
  predicate Restorable(doc: State, binding: Binding) {
    doc.binding == binding && Healthy(doc)
  }

  /** The checks a recovery makes on one suffix record. */
  predicate Follows(head: State, r: Record, binding: Binding) {
    && r.unsigned.sessionId == head.binding.sessionId
    && r.sha == Sha(r.unsigned)
    && r.unsigned.sequence == head.journalSequence + 1
    && r.unsigned.previous == head.journalSha
    && Restorable(r.unsigned.doc, binding)
  }

  /** The state after a suffix, or `None` when some record is refused. */
  function Replay(head: State, suffix: seq<Record>, binding: Binding): Option<State>
    decreases |suffix|
  {
    if suffix == [] then Some(head)
    else if Follows(head, suffix[0], binding) then Replay(Commit(suffix[0]), suffix[1..], binding)
    else None
  }

  /** `journal` is a genuine history on top of `head`. */
  predicate History(head: State, journal: seq<Record>, binding: Binding) {
    Replay(head, journal, binding).Some?
  }

  // ------------------------------------------------------- refinement

  lemma {:induction false} ReplayConcat(head: State, a: seq<Record>, b: seq<Record>, binding: Binding)
    ensures Replay(head, a + b, binding)
         == match Replay(head, a, binding) case Some(s) => Replay(s, b, binding) case None => None
    decreases |a|
  {
    if a == [] {
      assert a + b == b;
    } else {
      assert (a + b)[1..] == a[1..] + b;
      if Follows(head, a[0], binding) {
        ReplayConcat(Commit(a[0]), a[1..], b, binding);
      }
    }
  }

  /** One accepted record extends the history by exactly the committed candidate. */
  lemma ReplayExtend(head: State, journal: seq<Record>, candidate: State, kind: Kind, binding: Binding)
    requires History(head, journal, binding)
    requires Replay(head, journal, binding).value.binding == binding
    requires Restorable(candidate, binding)
    ensures var now := Replay(head, journal, binding).value;
            var r := RecordFor(now, candidate, kind);
            Replay(head, journal + [r], binding)
            == Some(candidate.(journalSequence := now.journalSequence + 1, journalSha := r.sha))
  {
    var now := Replay(head, journal, binding).value;
    var r := RecordFor(now, candidate, kind);
    ReplayConcat(head, journal, [r], binding);
    assert Follows(now, r, binding);
    assert [r][1..] == [];
  }

  /**
   Recovery refines uninterrupted running: from the checkpoint taken after any
   `k` records, replaying the next records up to `m` gives exactly the state
   the uninterrupted session held after `m` records.
   */
  lemma RecoveryIsUninterrupted(head: State, journal: seq<Record>, k: nat, m: nat, binding: Binding)
    requires History(head, journal, binding) && k <= m <= |journal|
    ensures var checkpoint := Replay(head, journal[..k], binding);
            && checkpoint.Some?
            && Replay(checkpoint.value, journal[k..m], binding) == Replay(head, journal[..m], binding)
            && Replay(head, journal[..m], binding).Some?
  {
    assert journal == journal[..k] + journal[k..];
    assert journal[..m] == journal[..k] + journal[k..m];
    assert journal == journal[..m] + journal[m..];
    ReplayConcat(head, journal[..k], journal[k..], binding);
    ReplayConcat(head, journal[..k], journal[k..m], binding);
    ReplayConcat(head, journal[..m], journal[m..], binding);
  }

  /** One step of the recovery loop. */
  lemma ReplayNext(head: State, suffix: seq<Record>, n: nat, now: State, binding: Binding)
    requires n < |suffix| && Replay(head, suffix[..n], binding) == Some(now)
    ensures Follows(now, suffix[n], binding) ==>
              Replay(head, suffix[..n + 1], binding) == Some(Commit(suffix[n])) && Restorable(Commit(suffix[n]), binding)
    ensures !Follows(now, suffix[n], binding) ==> Replay(head, suffix, binding) == None
  {
    assert suffix == suffix[..n] + suffix[n..];
    assert suffix[..n + 1] == suffix[..n] + [suffix[n]];
    ReplayConcat(head, suffix[..n], suffix[n..], binding);
    ReplayConcat(head, suffix[..n], [suffix[n]], binding);
    if Follows(now, suffix[n], binding) {
      CommitRestorable(suffix[n], binding);
      assert [suffix[n]][1..] == [];
    }
  }

  // ------------------------------------------------------ authenticity

  lemma {:induction false} SequencesAscend(head: State, journal: seq<Record>, i: nat, binding: Binding)
    requires History(head, journal, binding) && i < |journal|
    ensures journal[i].unsigned.sequence == head.journalSequence + 1 + i
    ensures journal[i].sha == Sha(journal[i].unsigned)
    ensures journal[i].unsigned.doc.binding == binding
    decreases i
  {
    if i > 0 {
      SequencesAscend(Commit(journal[0]), journal[1..], i - 1, binding);
    }
  }

  lemma ReplayPosition(head: State, journal: seq<Record>, binding: Binding)
    requires History(head, journal, binding)
    ensures Replay(head, journal, binding).value.journalSequence == head.journalSequence + |journal|
    ensures journal != [] ==>
              Replay(head, journal, binding).value == Commit(journal[|journal| - 1])
    decreases |journal|
  {
    if journal != [] {
      ReplayPosition(Commit(journal[0]), journal[1..], binding);
    }
  }

  /** A record that bears the digest of some genuine record. */
  predicate Claims(r: Record, journal: seq<Record>) {
    exists i | 0 <= i < |journal| :: r.sha == journal[i].sha
  }

  /**
   Altered, missing, repeated and reordered records are all refused: a suffix
   whose records bear genuine digests is accepted after `k` records if and
   only if it is the run of genuine records that follows them.
   */
  lemma {:induction false} OnlyTheGenuineRun(head: State, journal: seq<Record>, k: nat, suffix: seq<Record>, binding: Binding)
    requires History(head, journal, binding) && k <= |journal|
    requires forall r | r in suffix :: Claims(r, journal)
    ensures History(head, journal[..k], binding)
    ensures var checkpoint := Replay(head, journal[..k], binding).value;
            History(checkpoint, suffix, binding)
            <==> k + |suffix| <= |journal| && suffix == journal[k..k + |suffix|]
    decreases |suffix|
  {
    RecoveryIsUninterrupted(head, journal, k, |journal|, binding);
    var checkpoint := Replay(head, journal[..k], binding).value;
    if suffix == [] {
      assert journal[k..k] == [];
    } else if Follows(checkpoint, suffix[0], binding) {
      OnlyTheNextRecord(head, journal, k, suffix[0], binding);
      NextCheckpoint(head, journal, k, binding);
      OnlyTheGenuineRun(head, journal, k + 1, suffix[1..], binding);
      SplitRun(journal, k, suffix);
    } else if k < |journal| {
      NextCheckpoint(head, journal, k, binding);
    }
  }

  /** A run from `k` is the record at `k` followed by a run from `k + 1`. */
  lemma SplitRun(journal: seq<Record>, k: nat, suffix: seq<Record>)
    requires k < |journal| && suffix != [] && suffix[0] == journal[k]
    ensures k + |suffix| <= |journal| ==>
              (suffix == journal[k..k + |suffix|] <==> suffix[1..] == journal[k + 1..k + |suffix|])
  {
    assert suffix == [journal[k]] + suffix[1..];
    if k + |suffix| <= |journal| {
      assert journal[k..k + |suffix|] == [journal[k]] + journal[k + 1..k + |suffix|];
    }
  }

  /** Of all records bearing genuine digests, only the next genuine one is accepted. */
  lemma OnlyTheNextRecord(head: State, journal: seq<Record>, k: nat, r: Record, binding: Binding)
    requires History(head, journal, binding) && k <= |journal|
    requires History(head, journal[..k], binding) && Claims(r, journal)
    requires Follows(Replay(head, journal[..k], binding).value, r, binding)
    ensures k < |journal| && r == journal[k]
  {
    var i :| 0 <= i < |journal| && r.sha == journal[i].sha;
    SequencesAscend(head, journal, i, binding);
    ReplayPosition(head, journal[..k], binding);
    assert r.unsigned == journal[i].unsigned;
  }

  lemma NextCheckpoint(head: State, journal: seq<Record>, k: nat, binding: Binding)
    requires History(head, journal, binding) && k < |journal|
    ensures History(head, journal[..k], binding)
    ensures Replay(head, journal[..k + 1], binding) == Some(Commit(journal[k]))
    ensures Follows(Replay(head, journal[..k], binding).value, journal[k], binding)
  {
    RecoveryIsUninterrupted(head, journal, k, k + 1, binding);
    var checkpoint := Replay(head, journal[..k], binding).value;
    assert journal[k..k + 1] == [journal[k]];
    assert [journal[k]][1..] == [];
  }

  /** The state committed by the first `k` records. */
  function At(origin: State, journal: seq<Record>, k: nat): State
    requires k <= |journal|
  {
    if k == 0 then origin else Commit(journal[k - 1])
  }

  lemma AtIsReplay(origin: State, journal: seq<Record>, k: nat, binding: Binding)
    requires History(origin, journal, binding) && k <= |journal|
    ensures Replay(origin, journal[..k], binding) == Some(At(origin, journal, k))
  {
    if k == 0 {
      assert journal[..0] == [];
    } else {
      NextCheckpoint(origin, journal, k - 1, binding);
    }
  }

  /** A digest names the record at its own position. */
  predicate Anchored(s: State) {
    match s.journalSha
    case Genesis => s.journalSequence == 0
    case Sha(u) => u.sequence == s.journalSequence
  }

  /** The final digest authenticates the whole history that led to it. */
  lemma {:induction false} HeadDigestPinsHistory(head: State, a: seq<Record>, b: seq<Record>, binding: Binding)
    requires Anchored(head) && History(head, a, binding) && History(head, b, binding)
    requires Replay(head, a, binding).value.journalSha == Replay(head, b, binding).value.journalSha
    ensures a == b
    decreases |a|
  {
    ReplayPosition(head, a, binding);
    ReplayPosition(head, b, binding);
    if a == [] || b == [] {
      if a != [] {
        SequencesAscend(head, a, |a| - 1, binding);
      }
      if b != [] {
        SequencesAscend(head, b, |b| - 1, binding);
      }
    } else {
      var m, n := |a| - 1, |b| - 1;
      SequencesAscend(head, a, m, binding);
      SequencesAscend(head, b, n, binding);
      assert a[m] == b[n];
      NextCheckpoint(head, a, m, binding);
      NextCheckpoint(head, b, n, binding);
      HeadDigestPinsHistory(head, a[..m], b[..n], binding);
      assert a == a[..m] + [a[m]] && b == b[..n] + [b[n]];
    }
  }

  // ---------------------------------------------------------- recovery

  /** A state from which a fresh session may continue. */
  predicate Settled(s: State) {
    !s.barInProgress && s.pendingObservation == None
  }

  /** What a fresh session recovers from a checkpoint document and a suffix. */
  function Recover(document: State, suffix: seq<Record>, binding: Binding): Option<State> {
    if !Restorable(document, binding) then None
    else
      match Replay(document, suffix, binding)
      case Some(s) => if Settled(s) then Some(s) else None
      case None => None
  }

  /**
   Every split of every run: the checkpoint taken after `k` records plus the
   records up to `m` recovers the uninterrupted state after `m` records,
   exactly when that state is settled.
   */
  lemma CheckpointPlusSuffix(head: State, journal: seq<Record>, k: nat, m: nat, binding: Binding)
    requires Restorable(head, binding) && History(head, journal, binding) && k <= m <= |journal|
    ensures History(head, journal[..k], binding) && History(head, journal[..m], binding)
    ensures var checkpoint, final := Replay(head, journal[..k], binding).value, Replay(head, journal[..m], binding).value;
            Recover(checkpoint, journal[k..m], binding) == (if Settled(final) then Some(final) else None)
  {
    RecoveryIsUninterrupted(head, journal, k, m, binding);
    ReplayPosition(head, journal[..k], binding);
    if k > 0 {
      NextCheckpoint(head, journal, k - 1, binding);
      CommitRestorable(journal[k - 1], binding);
    } else {
      assert journal[..k] == [];
    }
  }

  lemma CommitRestorable(r: Record, binding: Binding)
    requires Restorable(r.unsigned.doc, binding)
    ensures Restorable(Commit(r), binding)
  {
  }

  /** The recovery loop: record by record, stopping at the first that does not follow. */
  method ReplaySuffix(document: State, suffix: seq<Record>, binding: Binding) returns (r: Option<State>)
    requires Restorable(document, binding)
    ensures r == Replay(document, suffix, binding)
    ensures r.Some? ==> Restorable(r.value, binding)
  {
    var head := document;
    for n := 0 to |suffix|
      invariant Replay(document, suffix[..n], binding) == Some(head) && Restorable(head, binding)
    {
      ReplayNext(document, suffix, n, head, binding);
      if !Follows(head, suffix[n], binding) {
        return None;
      }
      head := Commit(suffix[n]);
    }
    assert suffix[..|suffix|] == suffix;
    return Some(head);
  }
}
