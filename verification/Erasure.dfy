/** Deleting every price-alert step from a run leaves a run. */
module Erasure {
  import opened Tables
  import opened Machine
  import opened Claims
  import opened Independence
  import opened Safety

  /** The labels of a run without its price-alert steps; alert commands become plain messages. */
  ghost function Remaining(states: seq<State>, labels: seq<Label>): seq<Label>
    requires |states| == |labels| + 1
    decreases |labels|
  {
    if labels == [] then [] else
      var n := |labels| - 1;
      var before := Remaining(states[..n + 1], labels[..n]);
      if Erased(states[n], labels[n]) then before else before + [PlainLabel(labels[n])]
  }

  lemma RunPrefix(states: seq<State>, labels: seq<Label>, n: nat)
    requires Run(states, labels) && n <= |labels|
    ensures Run(states[..n + 1], labels[..n])
  {
  }

  lemma RunExtends(states: seq<State>, labels: seq<Label>, l: Label)
    requires Run(states, labels) && Can(states[|labels|], l)
    ensures Run(states + [Next(states[|labels|], l)], labels + [l])
  {
  }

  lemma Origin(s: State)
    requires Init(s)
    ensures Twin(s, s)
  {
  }

  lemma {:induction false} RemainderRuns(states: seq<State>, labels: seq<Label>) returns (plain: seq<State>)
    requires Run(states, labels)
    ensures Run(plain, Remaining(states, labels)) && Twin(states[|labels|], plain[|plain| - 1])
    decreases |labels|
  {
    if labels == [] {
      Origin(states[0]);
      plain := [states[0]];
    } else {
      var n := |labels| - 1;
      RunPrefix(states, labels, n);
      plain := RemainderRuns(states[..n + 1], labels[..n]);
      RunBase(states, labels, n);
      var before := Remaining(states[..n + 1], labels[..n]);
      TwinStep(states[n], plain[|before|], labels[n]);
      if !Erased(states[n], labels[n]) {
        RunExtends(plain, before, PlainLabel(labels[n]));
        plain := plain + [Next(plain[|before|], PlainLabel(labels[n]))];
      }
    }
  }

  lemma {:induction false} RemainderAlertFree(states: seq<State>, labels: seq<Label>)
    requires |states| == |labels| + 1
    ensures forall l | l in Remaining(states, labels) :: AlertFree(l)
    decreases |labels|
  {
    if labels != [] { RemainderAlertFree(states[..|labels|], labels[..|labels| - 1]); }
  }

  /** Non-interference: a run with all alert steps deleted is itself a run, and it ends with the same
      subscribers, versions, inbox progress, scheduled jobs and replies as the original. */
  lemma NonInterference(states: seq<State>, labels: seq<Label>) returns (plain: seq<State>)
    requires Run(states, labels)
    ensures Run(plain, Remaining(states, labels)) && forall l | l in Remaining(states, labels) :: AlertFree(l)
    ensures var db, db' := states[|labels|].db, plain[|plain| - 1].db;
      && db'.subs == db.subs && db'.versions == db.versions && db'.epoch == db.epoch
      && db'.updates.Keys == db.updates.Keys
      && (forall r | r in db.rows && !db.rows[r].kind.PriceAlert? :: r in db'.rows && db'.rows[r] == db.rows[r])
      && (forall r | r in db'.rows :: r in db.rows && db'.rows[r] == db.rows[r] && !db.rows[r].kind.PriceAlert?)
  {
    plain := RemainderRuns(states, labels);
    RemainderAlertFree(states, labels);
    assert plain[|plain| - 1].db.rows == PlainRows(states[|labels|].db.rows);
  }
}
