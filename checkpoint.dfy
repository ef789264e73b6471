/**
 * What `save` writes: the model's state dict with the `module.` prefix that
 * `DataParallel` and `DistributedDataParallel` put on every key removed, in a
 * file named after the step, and only on the main process.
 */
module Checkpoint {
  import opened Strings
  import opened Events

  /** The prefix a parallel wrapper adds to the keys of the module it wraps. */
  const WrapperPrefix: string := "module."

  /** A key as saved: without a leading `module.`, otherwise unchanged. */
  function NormalizeKey(key: string): (r: string)
    ensures StartsWith(key, WrapperPrefix) ==> key == WrapperPrefix + r
    ensures !StartsWith(key, WrapperPrefix) ==> r == key
  {
    if StartsWith(key, WrapperPrefix) then key[7..] else key
  }

  /** Unwrapping a key the wrapper prefixed gives the key back. */
  lemma NormalizeUnwraps(key: string)
    ensures NormalizeKey(WrapperPrefix + key) == key
  {
    assert (WrapperPrefix + key)[..7] == WrapperPrefix;
    assert (WrapperPrefix + key)[7..] == key;
  }

  /**
   * The dict comprehension over `state_dict().items()`: keys normalised,
   * values moved to the CPU (the same tensor here); when two keys normalise
   * alike, the later item overwrites the earlier one.
   */
  function CpuStateDict(items: seq<(string, Tensor)>): map<string, Tensor>
    decreases |items|
  {
    if items == [] then map[]
    else CpuStateDict(items[..|items| - 1])[NormalizeKey(items[|items| - 1].0) := items[|items| - 1].1]
  }

  /** The saved keys are exactly the normalised keys of the state dict. */
  lemma {:induction false} SavedKeys(items: seq<(string, Tensor)>)
    ensures CpuStateDict(items).Keys == set i | 0 <= i < |items| :: NormalizeKey(items[i].0)
    decreases |items|
  {
    if items != [] {
      var init := items[..|items| - 1];
      SavedKeys(init);
      assert forall i :: 0 <= i < |init| ==> init[i] == items[i];
      var last := |items| - 1;
      assert (set i | 0 <= i < |items| :: NormalizeKey(items[i].0))
        == (set i | 0 <= i < |init| :: NormalizeKey(init[i].0)) + {NormalizeKey(items[last].0)};
    }
  }

  /** An item whose normalised key no later item shares is saved with its own tensor. */
  lemma {:induction false} LastWriterWins(items: seq<(string, Tensor)>, i: nat)
    requires i < |items|
    requires forall j :: i < j < |items| ==> NormalizeKey(items[j].0) != NormalizeKey(items[i].0)
    ensures NormalizeKey(items[i].0) in CpuStateDict(items)
    ensures CpuStateDict(items)[NormalizeKey(items[i].0)] == items[i].1
    decreases |items|
  {
    if i < |items| - 1 {
      var init := items[..|items| - 1];
      assert init[i] == items[i];
      LastWriterWins(init, i);
    }
  }

  /** When no two keys normalise alike, every item is saved under its normalised key. */
  lemma NoCollisionKeepsAll(items: seq<(string, Tensor)>)
    requires forall i, j :: 0 <= i < j < |items| ==> NormalizeKey(items[i].0) != NormalizeKey(items[j].0)
    ensures forall i :: 0 <= i < |items| ==>
      NormalizeKey(items[i].0) in CpuStateDict(items) && CpuStateDict(items)[NormalizeKey(items[i].0)] == items[i].1
  {
    forall i | 0 <= i < |items|
      ensures NormalizeKey(items[i].0) in CpuStateDict(items) && CpuStateDict(items)[NormalizeKey(items[i].0)] == items[i].1
    {
      LastWriterWins(items, i);
    }
  }

  /** The state dict of the same module seen through a parallel wrapper. */
  function Wrapped(items: seq<(string, Tensor)>): (w: seq<(string, Tensor)>)
    ensures |w| == |items|
    ensures forall i :: 0 <= i < |items| ==> w[i] == (WrapperPrefix + items[i].0, items[i].1)
  {
    seq(|items|, i requires 0 <= i < |items| => (WrapperPrefix + items[i].0, items[i].1))
  }

  /**
   * A module saved through its parallel wrapper gives the same checkpoint as
   * the bare module, provided none of its own keys starts with `module.`.
   */
  lemma {:induction false} WrappedSavesAlike(items: seq<(string, Tensor)>)
    requires forall i :: 0 <= i < |items| ==> !StartsWith(items[i].0, WrapperPrefix)
    ensures CpuStateDict(Wrapped(items)) == CpuStateDict(items)
    decreases |items|
  {
    if items != [] {
      var init := items[..|items| - 1];
      WrappedSavesAlike(init);
      assert Wrapped(items)[..|items| - 1] == Wrapped(init);
      NormalizeUnwraps(items[|items| - 1].0);
    }
  }

  /** The file name `model-{step}.pt`. */
  function CheckpointFile(step: int): (name: string)
    ensures StartsWith(name, "model-") && |name| > 9
  {
    "model-" + IntToDecimal(step) + ".pt"
  }

  /** The step can be read back from the file name, so distinct steps write distinct files. */
  lemma CheckpointFileNamesStep(step: int)
    ensures var name := CheckpointFile(step);
      name[|name| - 3..] == ".pt" && DecimalToInt(name[6..|name| - 3]) == step
  {
    var name := CheckpointFile(step);
    assert name[6..|name| - 3] == IntToDecimal(step);
    IntDecimalRoundTrip(step);
  }

  /** What `save(step)` does: on the main process, write the checkpoint and log it. */
  function SaveEvents(localRank: int, outDir: string, items: seq<(string, Tensor)>, step: int): seq<Event> {
    if localRank <= 0 then
      [CheckpointWritten(outDir, CheckpointFile(step), CpuStateDict(items)), CheckpointLogged(step)]
    else []
  }
}
