/** The task option and the rewriting of targets to exactly -1 and +1 for
    binary classification. */
module Targets {
  import opened Common

  datatype Task = Regression | Classification

  /** `r` selects regression, `c` classification; anything else is refused. */
  function ParseTask(task: string): (r: Result<Task>)
    ensures r.Ok? <==> task == "r" || task == "c"
    ensures r == Ok(Regression) <==> task == "r"
    ensures r == Ok(Classification) <==> task == "c"
    ensures r.Err? ==> r.error == UnknownTask(task)
  {
    if task == "r" then Ok(Regression)
    else if task == "c" then Ok(Classification)
    else Err(UnknownTask(task))
  }

  /** A target at or below zero is the negative class, anything above zero
      the positive one. */
  function ClassLabel(y: real): (l: real)
    ensures l == -1.0 || l == 1.0
    ensures l == -1.0 <==> y <= 0.0
  {
    if y <= 0.0 then -1.0 else 1.0
  }

  /** Every target replaced by its class label. */
  function Remapped(t: seq<real>): (r: seq<real>)
    ensures |r| == |t|
    ensures forall i :: 0 <= i < |t| ==> r[i] == -1.0 || r[i] == 1.0
    ensures forall i :: 0 <= i < |t| ==> (r[i] == -1.0 <==> t[i] <= 0.0)
  {
    seq(|t|, i requires 0 <= i < |t| => ClassLabel(t[i]))
  }

  /** Remapping labels again changes nothing. */
  lemma RemapIdempotent(t: seq<real>)
    ensures Remapped(Remapped(t)) == Remapped(t)
  {
  }

  /** The targets the remap leaves alone are exactly those already in {-1, +1}. */
  lemma RemapFixpoints(t: seq<real>)
    ensures Remapped(t) == t <==> forall i :: 0 <= i < |t| ==> t[i] == -1.0 || t[i] == 1.0
  {
    if forall i :: 0 <= i < |t| ==> t[i] == -1.0 || t[i] == 1.0 {
      assert forall i :: 0 <= i < |t| ==> Remapped(t)[i] == t[i];
    }
  }

  /** The targets of one data set after the task has been applied. */
  function TargetsFor(task: Task, t: seq<real>): (r: seq<real>)
    ensures |r| == |t|
    ensures task == Regression ==> r == t
    ensures task == Classification ==> forall i :: 0 <= i < |t| ==> r[i] == ClassLabel(t[i])
  {
    if task == Classification then Remapped(t) else t
  }

  /** The remap loop over one target vector. */
  method RemapTargets(target: array<real>)
    modifies target
    ensures target[..] == Remapped(old(target[..]))
  {
    for i := 0 to target.Length
      invariant forall j :: 0 <= j < i ==> target[j] == ClassLabel(old(target[j]))
      invariant forall j :: i <= j < target.Length ==> target[j] == old(target[j])
    {
      if target[i] <= 0.0 {
        target[i] := -1.0;
      } else {
        target[i] := 1.0;
      }
    }
  }

  /** The task dispatch: for classification the train, test and (when
      loaded) validation targets are remapped, for regression nothing
      changes, and an unknown task changes nothing and is refused. */
  method ApplyTask(task: string, train: array<real>, test: array<real>, validation: array?<real>)
    returns (r: Result<Task>)
    requires train != test && train != validation && test != validation
    modifies train, test, validation
    ensures r == ParseTask(task)
    ensures r.Ok? ==> train[..] == TargetsFor(r.value, old(train[..]))
    ensures r.Ok? ==> test[..] == TargetsFor(r.value, old(test[..]))
    ensures r.Ok? && validation != null ==> validation[..] == TargetsFor(r.value, old(validation[..]))
    ensures r.Err? ==> unchanged(train) && unchanged(test)
    ensures r.Err? && validation != null ==> unchanged(validation)
  {
    if task == "r" {
      r := Ok(Regression);
    } else if task == "c" {
      r := Ok(Classification);
      RemapTargets(train);
      RemapTargets(test);
      if validation != null {
        RemapTargets(validation);
      }
    } else {
      r := Err(UnknownTask(task));
    }
  }
}
