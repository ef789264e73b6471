/**
 * The text `MetaICLModel.__str__` renders: a banner of 50 `=` above and
 * below a header naming the loaded model and its mode, and a line naming
 * the device, the number of GPUs and the local rank.
 */
module Description {
  import opened Wrappers
  import opened Strings

  const Header := "[MetaICL Model]: "
  const NothingLoaded := "No model loaded yet"
  /** The hint shown when no mode is set; its parenthesis is never closed. */
  const NoModeHint := " (no mode setted - try .train() or .eval()"
  const DevicePrefix := "\nusing device "
  const RankPrefix := " gpus, local_rank="

  /** `"=" * 50` */
  function Banner(): (b: string)
    ensures |b| == 50 && forall i :: 0 <= i < |b| ==> b[i] == '='
  {
    seq(50, _ => '=')
  }

  /** What follows the header: the model name and its mode, or that nothing is loaded. */
  function Status(modelName: Option<string>, mode: Option<string>): string {
    match modelName
    case None => NothingLoaded
    case Some(name) =>
      name + match mode
             case None => NoModeHint
             case Some(m) => " (" + m + " mode)"
  }

  /** `"\nusing device %s, %d gpus, local_rank=%d" % (device, n_gpu, local_rank)` */
  function DeviceLine(device: string, nGpu: int, localRank: int): string {
    DevicePrefix + device + ", " + IntToDecimal(nGpu) + RankPrefix + IntToDecimal(localRank)
  }

  function Describe(modelName: Option<string>, mode: Option<string>, device: string, nGpu: int, localRank: int): (r: string)
    ensures |r| >= 2 * 51 + |Header|
    ensures r[..51] == Banner() + "\n" && r[|r| - 51..] == "\n" + Banner()
  {
    var top := Banner() + "\n";
    var text := Header + Status(modelName, mode) + DeviceLine(device, nGpu, localRank);
    var bottom := "\n" + Banner();
    ConcatAssoc(top, text, bottom);
    ConcatSplitsAt(top, text + bottom);
    ConcatSplitsAt(top + text, bottom);
    top + text + bottom
  }

  /** The offset at which the status text starts: after the banner, its newline and the header. */
  const StatusAt := 51 + |Header|

  /** The status sits right after the header. */
  lemma DescribeShowsStatus(modelName: Option<string>, mode: Option<string>, device: string, nGpu: int, localRank: int)
    ensures var r := Describe(modelName, mode, device, nGpu, localRank);
      var status := Status(modelName, mode);
      StatusAt + |status| <= |r| && r[51..StatusAt] == Header && r[StatusAt..StatusAt + |status|] == status
  {
    var top := Banner() + "\n";
    var status := Status(modelName, mode);
    var line := DeviceLine(device, nGpu, localRank);
    var bottom := "\n" + Banner();
    ConcatAssoc(top, Header + status, line);
    ConcatAssoc(top, Header, status);
    ConcatAssoc(top + Header + status, line, bottom);
    ConcatMiddle(top + Header, status, line + bottom);
    ConcatAssoc(top, Header, status + (line + bottom));
    ConcatMiddle(top, Header, status + (line + bottom));
  }

  /** The loaded model's name, or the notice that none is loaded, follows the header. */
  lemma DescribeNamesModel(modelName: Option<string>, mode: Option<string>, device: string, nGpu: int, localRank: int)
    ensures var r := Describe(modelName, mode, device, nGpu, localRank);
      match modelName
      case None => StatusAt + |NothingLoaded| <= |r| && r[StatusAt..StatusAt + |NothingLoaded|] == NothingLoaded
      case Some(name) => StatusAt + |name| <= |r| && r[StatusAt..StatusAt + |name|] == name
  {
    DescribeShowsStatus(modelName, mode, device, nGpu, localRank);
    var r := Describe(modelName, mode, device, nGpu, localRank);
    var status := Status(modelName, mode);
    match modelName
    case None =>
    case Some(name) =>
      var suffix := match mode case None => NoModeHint case Some(m) => " (" + m + " mode)";
      ConcatSplitsAt(name, suffix);
      SliceTakePrefix(r, StatusAt, StatusAt + |status|, |name|);
  }

  /** With a model loaded, its mode (or the hint to set one) follows the name. */
  lemma DescribeNamesMode(name: string, mode: Option<string>, device: string, nGpu: int, localRank: int)
    ensures var r := Describe(Some(name), mode, device, nGpu, localRank);
      var at := StatusAt + |name|;
      match mode
      case None => at + |NoModeHint| <= |r| && r[at..at + |NoModeHint|] == NoModeHint
      case Some(m) => at + |m| + 8 <= |r| && r[at..at + |m| + 8] == " (" + m + " mode)"
  {
    DescribeShowsStatus(Some(name), mode, device, nGpu, localRank);
    var r := Describe(Some(name), mode, device, nGpu, localRank);
    var status := Status(Some(name), mode);
    var suffix := match mode case None => NoModeHint case Some(m) => " (" + m + " mode)";
    ConcatSplitsAt(name, suffix);
    SliceDropPrefix(r, StatusAt, StatusAt + |status|, |name|);
  }

  /**
   * The text closes with the local rank printed with `%d` and the banner,
   * so the rank can be read back (see `Strings.IntDecimalRoundTrip`).
   */
  lemma DescribeEndsWithRank(modelName: Option<string>, mode: Option<string>, device: string, nGpu: int, localRank: int)
    ensures var r := Describe(modelName, mode, device, nGpu, localRank);
      var tail := RankPrefix + IntToDecimal(localRank) + "\n" + Banner();
      |tail| <= |r| && r[|r| - |tail|..] == tail
  {
    var r := Describe(modelName, mode, device, nGpu, localRank);
    var tail := RankPrefix + IntToDecimal(localRank) + "\n" + Banner();
    var lineFront := DevicePrefix + device + ", " + IntToDecimal(nGpu);
    var rank := RankPrefix + IntToDecimal(localRank);
    var head := Header + Status(modelName, mode);
    var bottom := "\n" + Banner();
    ConcatAssoc(lineFront, RankPrefix, IntToDecimal(localRank));
    ConcatAssoc(head, lineFront, rank);
    ConcatAssoc(Banner() + "\n", head + lineFront, rank);
    ConcatAssoc(Banner() + "\n" + (head + lineFront), rank, bottom);
    ConcatAssoc(rank, "\n", Banner());
    ConcatSplitsAt(Banner() + "\n" + (head + lineFront), tail);
  }

  /** String concatenation regroups to the left. */
  lemma ConcatAssoc(a: string, b: string, c: string)
    ensures a + (b + c) == a + b + c
  {
  }

  /** A concatenation splits back into its two pieces at the length of the first. */
  lemma ConcatSplitsAt(a: string, b: string)
    ensures (a + b)[..|a|] == a && (a + b)[|a|..] == b
  {
  }

  /** The middle piece of a concatenation sits at the length of the first. */
  lemma ConcatMiddle(a: string, b: string, c: string)
    ensures (a + b + c)[|a|..|a| + |b|] == b
  {
  }

  /** The first k characters of the slice `s[i..j]` are `s[i..i + k]`. */
  lemma SliceTakePrefix(s: string, i: int, j: int, k: int)
    requires 0 <= i <= i + k <= j <= |s|
    ensures s[i..j][..k] == s[i..i + k]
  {
  }

  /** Dropping the first k characters of the slice `s[i..j]` leaves `s[i + k..j]`. */
  lemma SliceDropPrefix(s: string, i: int, j: int, k: int)
    requires 0 <= i <= i + k <= j <= |s|
    ensures s[i..j][k..] == s[i + k..j]
  {
  }
}
