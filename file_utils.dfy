/**
 * `FileUtils::findDataFile` (include/FileUtils.hpp): try a fixed list of relative locations
 * for a data file and return the first that exists, or the bare name when none does.
 * `std::filesystem::exists` is the predicate `fileExists`, a snapshot of the file system.
 */
module DataFiles {
  import opened Options

  /** The directories tried, in order: here, up to three levels up, and the data directory
      here and up to two levels up. */
  const Prefixes: seq<string> := ["", "../", "../../", "../../../", "data/", "../data/", "../../data/"]

  /** The candidate paths for a file name, in the order they are tried. */
  function Candidates(filename: string): (c: seq<string>)
    ensures |c| == |Prefixes| == 7
    ensures c[0] == filename
    ensures forall k :: 0 <= k < |c| ==> c[k] == Prefixes[k] + filename
  {
    assert Prefixes[0] == "";
    seq(|Prefixes|, k requires 0 <= k < |Prefixes| => Prefixes[k] + filename)
  }

  /** The first index from `from` on whose path exists. */
  function FirstExisting(paths: seq<string>, fileExists: string -> bool, from: nat): (r: Option<nat>)
    requires from <= |paths|
    ensures r.Some? ==> from <= r.value < |paths| && fileExists(paths[r.value])
    ensures r.Some? ==> forall j :: from <= j < r.value ==> !fileExists(paths[j])
    ensures r.None? ==> forall j :: from <= j < |paths| ==> !fileExists(paths[j])
    decreases |paths| - from
  {
    if from == |paths| then None
    else if fileExists(paths[from]) then Some(from)
    else FirstExisting(paths, fileExists, from + 1)
  }

  /** `findDataFile`: the first existing candidate, else the name itself. */
  function FindDataFile(filename: string, fileExists: string -> bool): (path: string)
    ensures path in Candidates(filename)
  {
    var c := Candidates(filename);
    match FirstExisting(c, fileExists, 0)
    case Some(k) => c[k]
    case None => filename
  }

  /** The k-th candidate is returned exactly when it exists and no earlier one does. */
  lemma FoundIsFirstExisting(filename: string, fileExists: string -> bool, k: nat)
    requires k < 7
    ensures var c := Candidates(filename);
      (fileExists(c[k]) && forall j :: 0 <= j < k ==> !fileExists(c[j])) ==> FindDataFile(filename, fileExists) == c[k]
    ensures var c := Candidates(filename);
      FindDataFile(filename, fileExists) != filename ==> fileExists(FindDataFile(filename, fileExists))
  {
    var c := Candidates(filename);
    var r := FirstExisting(c, fileExists, 0);
    if r.Some? && fileExists(c[k]) && forall j :: 0 <= j < k ==> !fileExists(c[j]) {
      assert !(r.value < k) && !(k < r.value);
    }
  }

  /** With no candidate on disk the name comes back unchanged. */
  lemma NothingFoundGivesName(filename: string, fileExists: string -> bool)
    requires forall k :: 0 <= k < 7 ==> !fileExists(Candidates(filename)[k])
    ensures FindDataFile(filename, fileExists) == filename
  {
  }
}
