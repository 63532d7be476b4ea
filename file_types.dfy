/**
 * File-type dispatch: the file name's suffix chooses the reader.
 * The suffix test is a plain string suffix, with no leading dot.
 */
module FileTypes {
  import opened Wrappers
  import opened PhotonErrors

  const PT2_TAG: string := "pt2"
  const TIMETAG_TAG: string := "timetag"
  const RAW_TAG: string := "raw"

  /** Python's `str.endswith`: `s` is some string followed by `suffix`. */
  predicate EndsWith(s: string, suffix: string)
    ensures EndsWith(s, suffix) ==> |suffix| <= |s| && s == s[..|s| - |suffix|] + suffix
    ensures forall prefix: string :: s == prefix + suffix ==> EndsWith(s, suffix)
  {
    |suffix| <= |s| && s[|s| - |suffix|..] == suffix
  }

  /**
   * The four recognised suffixes end in four different characters
   * ('2', '3', 'g', 's'), so a name carries at most one of them and the
   * order of the tests in the dispatch chain cannot change its answer.
   */
  lemma SuffixesExclusive(fname: string)
    ensures EndsWith(fname, "pt2") ==> !EndsWith(fname, "pt3") && !EndsWith(fname, "timetag") && !EndsWith(fname, "times")
    ensures EndsWith(fname, "pt3") ==> !EndsWith(fname, "timetag") && !EndsWith(fname, "times")
    ensures EndsWith(fname, "timetag") ==> !EndsWith(fname, "times")
  {
  }

  /**
   * Classifies a file name by its suffix. PicoQuant `pt3` files share the
   * `pt2` tag; names without a known suffix are refused.
   */
  function DetermineFiletype(fname: string): (r: Result<string, Error>)
    ensures r.Ok? ==> r.value in {PT2_TAG, TIMETAG_TAG, RAW_TAG}
    ensures r == Ok(PT2_TAG) <==> EndsWith(fname, "pt2") || EndsWith(fname, "pt3")
    ensures r == Ok(TIMETAG_TAG) <==> EndsWith(fname, "timetag")
    ensures r == Ok(RAW_TAG) <==> EndsWith(fname, "times")
    ensures r.Err? <==>
      !EndsWith(fname, "pt2") && !EndsWith(fname, "pt3") &&
      !EndsWith(fname, "timetag") && !EndsWith(fname, "times")
    ensures r.Err? ==> r.error == UnrecognizedFileType
  {
    SuffixesExclusive(fname);
    if EndsWith(fname, "pt2") then Ok(PT2_TAG)
    else if EndsWith(fname, "pt3") then Ok(PT2_TAG)
    else if EndsWith(fname, "timetag") then Ok(TIMETAG_TAG)
    else if EndsWith(fname, "times") then Ok(RAW_TAG)
    else Err(UnrecognizedFileType)
  }

  /**
   * Any prefix followed by a recognised suffix is classified by that suffix,
   * dot or no dot: `foopt2` is a PT2 file, `run.pt3` is read as PT2 too.
   */
  lemma SuffixDecides(prefix: string)
    ensures DetermineFiletype(prefix + "pt2") == Ok(PT2_TAG)
    ensures DetermineFiletype(prefix + "pt3") == Ok(PT2_TAG)
    ensures DetermineFiletype(prefix + "timetag") == Ok(TIMETAG_TAG)
    ensures DetermineFiletype(prefix + "times") == Ok(RAW_TAG)
  {
  }
}
