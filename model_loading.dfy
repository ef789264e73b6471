/**
 * How `MetaICLModel.load` turns the configured model name into the checkpoint
 * that `from_pretrained` is asked for: ordered substring tests pick a model
 * family, then a size tag or an exact name picks a path.
 */
module ModelLoading {
  import opened Wrappers
  import opened Strings

  datatype Family = Llama | Falcon | Mosaic | Gpt

  /** The class whose `from_pretrained` is called. */
  datatype Loader = LlamaForCausalLM | AutoModelForCausalLM

  /** One `from_pretrained(path, ...)` call; every call also passes `device_map='auto'`. */
  datatype LoadRequest = LoadRequest(loader: Loader, path: string, trustRemoteCode: bool)

  /** The family branch taken: the first of "llama", "falcon", "mosaic", "gpt" that occurs in the name. */
  function FamilyOf(name: string): Option<Family> {
    if Contains(name, "llama") then Some(Llama)
    else if Contains(name, "falcon") then Some(Falcon)
    else if Contains(name, "mosaic") then Some(Mosaic)
    else if Contains(name, "gpt") then Some(Gpt)
    else None
  }

  /**
   * The value of `model_name` after the branch (the `prefix` is always empty);
   * this is also what `self.model_name` is set to, even when no branch matched.
   */
  function CheckpointPath(name: string): string {
    match FamilyOf(name)
    case Some(Llama) =>
      if Contains(name, "7B") then "models/llama-7b-hf"
      else if Contains(name, "13B") then "/home/ubuntu/llama_models/13B_hf"
      else name
    case Some(Falcon) =>
      if Contains(name, "7B") then "tiiuae/falcon-7b"
      else if Contains(name, "40B") then "tiiuae/falcon-40b"
      else name
    case Some(Mosaic) =>
      if Contains(name, "7B") then "mosaicml/mpt-7b" else name
    case Some(Gpt) =>
      if name == "gpt-neo-1.3B" then "models/gpt-neo-1.3B"
      else if name == "gpt-neo2" then "EleutherAI/gpt-neo-2.7B"
      else if name == "gpt-neox" then "EleutherAI/gpt-neox-20b"
      else "models/gpt-j-6B"
    case None => name
  }

  /**
   * The `from_pretrained` call `load` makes, or None when no family matched
   * (the source then fails with UnboundLocalError on `model`).
   */
  function Resolve(name: string): (r: Option<LoadRequest>)
    ensures r.Some? <==> FamilyOf(name).Some?
    ensures r.Some? ==> r.value.path == CheckpointPath(name)
    ensures r.Some? ==> (r.value.loader == LlamaForCausalLM <==> FamilyOf(name) == Some(Llama))
    ensures r.Some? ==> (r.value.trustRemoteCode <==> FamilyOf(name) in {Some(Falcon), Some(Mosaic)})
  {
    match FamilyOf(name)
    case Some(Llama) => Some(LoadRequest(LlamaForCausalLM, CheckpointPath(name), false))
    case Some(Falcon) => Some(LoadRequest(AutoModelForCausalLM, CheckpointPath(name), true))
    case Some(Mosaic) => Some(LoadRequest(AutoModelForCausalLM, CheckpointPath(name), true))
    case Some(Gpt) => Some(LoadRequest(AutoModelForCausalLM, CheckpointPath(name), false))
    case None => None
  }

  // Substring facts about the literal paths of the table, one path at a time.

  lemma LlamaPath7BFamily()
    ensures FamilyOf("models/llama-7b-hf") == Some(Llama)
  {
    ConcatContains("models/llama-7b-hf", "models/", "llama", "-7b-hf");
  }

  lemma LlamaPath7BSize()
    ensures !Contains("models/llama-7b-hf", "7B") && !Contains("models/llama-7b-hf", "13B")
  {
    ContainedCharIn("models/llama-7b-hf", "7B", 1);
    ContainedCharIn("models/llama-7b-hf", "13B", 2);
  }

  lemma LlamaPath13BFamily()
    ensures FamilyOf("/home/ubuntu/llama_models/13B_hf") == Some(Llama)
  {
    NamedLlama("/home/ubuntu/llama_models/13B_hf", "/home/ubuntu/", "_models/13B_hf");
  }

  /** A name with "llama" in it is in the llama family. */
  lemma NamedLlama(s: string, a: string, b: string)
    requires s == a + "llama" + b
    ensures FamilyOf(s) == Some(Llama)
  {
    ConcatContains(s, a, "llama", b);
  }

  lemma LlamaPath13BSize()
    ensures !Contains("/home/ubuntu/llama_models/13B_hf", "7B") && Contains("/home/ubuntu/llama_models/13B_hf", "13B")
  {
    ContainedCharIn("/home/ubuntu/llama_models/13B_hf", "7B", 0);
    ConcatContains("/home/ubuntu/llama_models/13B_hf", "/home/ubuntu/llama_models/", "13B", "_hf");
  }

  lemma FalconPathFamilies()
    ensures FamilyOf("tiiuae/falcon-7b") == Some(Falcon)
    ensures FamilyOf("tiiuae/falcon-40b") == Some(Falcon)
  {
    ContainedCharIn("tiiuae/falcon-7b", "llama", 3);
    ConcatContains("tiiuae/falcon-7b", "tiiuae/", "falcon", "-7b");
    ContainedCharIn("tiiuae/falcon-40b", "llama", 3);
    ConcatContains("tiiuae/falcon-40b", "tiiuae/", "falcon", "-40b");
  }

  lemma FalconPathSizes()
    ensures !Contains("tiiuae/falcon-7b", "7B") && !Contains("tiiuae/falcon-7b", "40B")
    ensures !Contains("tiiuae/falcon-40b", "7B") && !Contains("tiiuae/falcon-40b", "40B")
  {
    ContainedCharIn("tiiuae/falcon-7b", "7B", 1);
    ContainedCharIn("tiiuae/falcon-7b", "40B", 2);
    ContainedCharIn("tiiuae/falcon-40b", "7B", 1);
    ContainedCharIn("tiiuae/falcon-40b", "40B", 2);
  }

  lemma MosaicPathFamily()
    ensures FamilyOf("mosaicml/mpt-7b") == Some(Mosaic)
  {
    ContainedCharAfter("mosaicml/mpt-7b", "mosa", "icml/mpt-7b", "llama", 4);
    ContainedCharIn("mosaicml/mpt-7b", "falcon", 0);
    ConcatContains("mosaicml/mpt-7b", "", "mosaic", "ml/mpt-7b");
  }

  lemma MosaicPathSize()
    ensures !Contains("mosaicml/mpt-7b", "7B")
  {
    ContainedCharIn("mosaicml/mpt-7b", "7B", 1);
  }

  /** The two gpt paths under `models/` mention no earlier family. */
  lemma GptLocalPathsNotEarlier()
    ensures !Contains("models/gpt-neo-1.3B", "llama") && !Contains("models/gpt-neo-1.3B", "falcon")
    ensures !Contains("models/gpt-j-6B", "llama") && !Contains("models/gpt-j-6B", "falcon")
  {
    ContainedCharIn("models/gpt-neo-1.3B", "llama", 2);
    ContainedCharIn("models/gpt-neo-1.3B", "falcon", 0);
    ContainedCharIn("models/gpt-j-6B", "llama", 2);
    ContainedCharIn("models/gpt-j-6B", "falcon", 0);
  }

  /** The two EleutherAI gpt paths mention no earlier family. */
  lemma GptHubPathsNotEarlier()
    ensures !Contains("EleutherAI/gpt-neo-2.7B", "llama") && !Contains("EleutherAI/gpt-neo-2.7B", "falcon")
    ensures !Contains("EleutherAI/gpt-neox-20b", "llama") && !Contains("EleutherAI/gpt-neox-20b", "falcon")
  {
    ContainedCharIn("EleutherAI/gpt-neo-2.7B", "llama", 3);
    ContainedCharIn("EleutherAI/gpt-neo-2.7B", "falcon", 0);
    ContainedCharIn("EleutherAI/gpt-neox-20b", "llama", 3);
    ContainedCharIn("EleutherAI/gpt-neox-20b", "falcon", 0);
  }

  lemma GptLocalPathFamilies()
    ensures FamilyOf("models/gpt-neo-1.3B") == Some(Gpt)
    ensures FamilyOf("models/gpt-j-6B") == Some(Gpt)
  {
    GptLocalPathsNotEarlier();
    ContainedCharIn("models/gpt-neo-1.3B", "mosaic", 3);
    ConcatContains("models/gpt-neo-1.3B", "models/", "gpt", "-neo-1.3B");
    ContainedCharIn("models/gpt-j-6B", "mosaic", 3);
    ConcatContains("models/gpt-j-6B", "models/", "gpt", "-j-6B");
  }

  lemma GptHubPathFamilies()
    ensures FamilyOf("EleutherAI/gpt-neo-2.7B") == Some(Gpt)
    ensures FamilyOf("EleutherAI/gpt-neox-20b") == Some(Gpt)
  {
    GptHubPathsNotEarlier();
    ContainedCharIn("EleutherAI/gpt-neo-2.7B", "mosaic", 0);
    ConcatContains("EleutherAI/gpt-neo-2.7B", "EleutherAI/", "gpt", "-neo-2.7B");
    ContainedCharIn("EleutherAI/gpt-neox-20b", "mosaic", 0);
    ConcatContains("EleutherAI/gpt-neox-20b", "EleutherAI/", "gpt", "-neox-20b");
  }

  lemma PathFacts()
    ensures FamilyOf("models/llama-7b-hf") == Some(Llama)
    ensures !Contains("models/llama-7b-hf", "7B") && !Contains("models/llama-7b-hf", "13B")
    ensures FamilyOf("/home/ubuntu/llama_models/13B_hf") == Some(Llama)
    ensures !Contains("/home/ubuntu/llama_models/13B_hf", "7B") && Contains("/home/ubuntu/llama_models/13B_hf", "13B")
    ensures FamilyOf("tiiuae/falcon-7b") == Some(Falcon)
    ensures !Contains("tiiuae/falcon-7b", "7B") && !Contains("tiiuae/falcon-7b", "40B")
    ensures FamilyOf("tiiuae/falcon-40b") == Some(Falcon)
    ensures !Contains("tiiuae/falcon-40b", "7B") && !Contains("tiiuae/falcon-40b", "40B")
    ensures FamilyOf("mosaicml/mpt-7b") == Some(Mosaic) && !Contains("mosaicml/mpt-7b", "7B")
    ensures FamilyOf("models/gpt-neo-1.3B") == Some(Gpt)
    ensures FamilyOf("EleutherAI/gpt-neo-2.7B") == Some(Gpt)
    ensures FamilyOf("EleutherAI/gpt-neox-20b") == Some(Gpt)
    ensures FamilyOf("models/gpt-j-6B") == Some(Gpt)
  {
    LlamaPath7BFamily();
    LlamaPath7BSize();
    LlamaPath13BFamily();
    LlamaPath13BSize();
    FalconPathFamilies();
    FalconPathSizes();
    MosaicPathFamily();
    MosaicPathSize();
    GptLocalPathFamilies();
    GptHubPathFamilies();
  }

  /** The path chosen for a name is recognised as the same family as the name. */
  lemma ResolvedPathStaysInFamily(name: string)
    ensures FamilyOf(CheckpointPath(name)) == FamilyOf(name)
  {
    PathFacts();
  }

  /**
   * `load` resolves `args.model_name`, never the stored `self.model_name`.
   * For the llama, falcon and mosaic families, the stored name given back as
   * `args.model_name` loads the same checkpoint again. An unrecognised name is
   * stored unchanged and raises UnboundLocalError again.
   */
  lemma ReResolutionStable(name: string)
    requires FamilyOf(name) != Some(Gpt)
    ensures CheckpointPath(CheckpointPath(name)) == CheckpointPath(name)
  {
    PathFacts();
  }

  /**
   * For the gpt family only the three exact names are mapped, so a stored
   * gpt `self.model_name` given back as `args.model_name` always loads the
   * gpt-j checkpoint: it cannot be reused to reload the same model.
   */
  lemma GptReResolutionFallsToGptJ(name: string)
    requires FamilyOf(name) == Some(Gpt)
    ensures CheckpointPath(CheckpointPath(name)) == "models/gpt-j-6B"
  {
    PathFacts();
  }
}
