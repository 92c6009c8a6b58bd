/**
 Firmware version extraction from a hardware id such as
 "362001000762+U-CS532AE(LT)V3.31.bin": the search for the regular expression
 (?<=V)([\d.]+)\.bin$ and the value of its first group.
 */
module FirmwareVersion {
  import opened Wrappers

  /** The character class `[\d.]`, with `\d` read as an ASCII decimal digit. */
  predicate IsVersionChar(c: char)
  {
    '0' <= c <= '9' || c == '.'
  }

  /** Where `$` (without MULTILINE) holds: at the very end, or just before a final newline. */
  predicate AtEnd(s: string, k: int)
  {
    k == |s| || (0 <= k == |s| - 1 && s[k] == '\n')
  }

  /** The literal ".bin" starts at position `j` and the end anchor holds right after it. */
  predicate BinAt(s: string, j: int)
  {
    0 <= j && j + 4 <= |s| && s[j..j + 4] == ".bin" && AtEnd(s, j + 4)
  }

  /**
   The pattern matches `s` with group 1 spanning `s[i..j]`: a 'V' just before `i`
   (the look-behind), one or more digits or dots, then ".bin" and the end anchor.
   */
  ghost predicate MatchesAt(s: string, i: int, j: int)
  {
    && 1 <= i < j
    && BinAt(s, j)
    && s[i - 1] == 'V'
    && (forall k :: i <= k < j ==> IsVersionChar(s[k]))
  }

  /** At most one position satisfies `BinAt`: ".bin" ends in 'n', never in a newline. */
  lemma BinAtUnique(s: string, j: int, j': int)
    requires BinAt(s, j) && BinAt(s, j')
    ensures j == j'
  {
    assert s[j + 3] == s[j..j + 4][3] == 'n';
    assert s[j' + 3] == s[j'..j' + 4][3] == 'n';
  }

  /** The position of the anchored ".bin", if the string ends with one. */
  function SuffixStart(s: string): (r: Option<nat>)
    ensures r.Some? ==> BinAt(s, r.value)
  {
    if |s| >= 4 && s[|s| - 4..] == ".bin" then Some(|s| - 4)
    else if |s| >= 5 && s[|s| - 5..] == ".bin\n" then
      assert s[|s| - 5..|s| - 1] == s[|s| - 5..][..4];
      Some(|s| - 5)
    else None
  }

  /** Whenever an anchored ".bin" exists, `SuffixStart` finds it. */
  lemma SuffixStartComplete(s: string, j: int)
    requires BinAt(s, j)
    ensures SuffixStart(s) == Some(j)
  {
    if j + 4 == |s| {
      assert s[|s| - 4..] == s[j..j + 4];
    } else {
      assert s[|s| - 5..] == s[j..j + 4] + [s[j + 4]];
      assert s[|s| - 1] == '\n';
      assert s[|s| - 4..][3] == s[|s| - 1];
    }
  }

  /** The start of the longest run of digits and dots that ends at position `j` of `s`. */
  function RunStart(s: string, j: nat): (k: nat)
    requires j <= |s|
    ensures k <= j
    ensures forall m :: k <= m < j ==> IsVersionChar(s[m])
    ensures k > 0 ==> !IsVersionChar(s[k - 1])
    decreases j
  {
    if j == 0 || !IsVersionChar(s[j - 1]) then j else RunStart(s, j - 1)
  }

  /** `RunStart` is determined by its contract: the run of digits and dots ending at `j` starts at `k`. */
  lemma {:induction false} RunStartIs(s: string, j: nat, k: nat)
    requires k <= j <= |s|
    requires forall m :: k <= m < j ==> IsVersionChar(s[m])
    requires k == 0 || !IsVersionChar(s[k - 1])
    ensures RunStart(s, j) == k
    decreases j
  {
    if j > k {
      RunStartIs(s, j - 1, k);
    }
  }

  /**
   `match and match.group(1)` for `re.search(r"(?<=V)([\d.]+)\.bin$", hid)`: the
   version found in `hid`, or `None` when the pattern does not occur.
   */
  function SearchVersion(hid: string): (r: Option<string>)
    ensures r.Some? ==> r.value != [] && forall c :: c in r.value ==> IsVersionChar(c)
    ensures r.Some? ==> exists i, j :: MatchesAt(hid, i, j) && r.value == hid[i..j]
  {
    match SuffixStart(hid)
    case None => None
    case Some(j) =>
      var i := RunStart(hid, j);
      if 1 <= i < j && hid[i - 1] == 'V' then
        assert MatchesAt(hid, i, j);
        Some(hid[i..j])
      else None
  }

  /**
   The `version` that `request_version` leaves once the device reported `hid`: an absent
   or empty hid keeps the current version, a present one is searched and may give `None`.
   */
  function UpdatedVersion(current: Option<string>, hid: Option<string>): (r: Option<string>)
    ensures !Truthy(hid) ==> r == current
    ensures Truthy(hid) ==> (r.None? <==> forall i, j :: !MatchesAt(hid.value, i, j))
    ensures Truthy(hid) && r.Some? ==> exists i, j :: MatchesAt(hid.value, i, j) && r.value == hid.value[i..j]
  {
    if Truthy(hid) then
      SearchNoneIffNoMatch(hid.value);
      SearchVersion(hid.value)
    else current
  }

  /** The group cannot contain a 'V' and the anchor fixes its end, so a match is unique. */
  lemma MatchIsUnique(s: string, i: int, j: int, i': int, j': int)
    requires MatchesAt(s, i, j) && MatchesAt(s, i', j')
    ensures i == i' && j == j'
  {
    // Both groups end at the one anchored ".bin"; the 'V' before each group cannot lie
    // inside the other, so they also start at the same place.
    BinAtUnique(s, j, j');
  }

  /** Whenever the pattern occurs, the search finds it: the leftmost, greedy match is the only one. */
  lemma SearchFindsEveryMatch(s: string, i: int, j: int)
    requires MatchesAt(s, i, j)
    ensures SearchVersion(s) == Some(s[i..j])
  {
    SuffixStartComplete(s, j);
    // The run of digits and dots that ends at the anchor stops at the 'V' before the
    // group, and never inside the group.
    RunStartIs(s, j, i);
  }

  /** The search reports nothing exactly when the pattern does not occur. */
  lemma SearchNoneIffNoMatch(s: string)
    ensures SearchVersion(s).None? <==> forall i, j :: !MatchesAt(s, i, j)
  {
    forall i, j | MatchesAt(s, i, j)
      ensures SearchVersion(s).Some?
    {
      SearchFindsEveryMatch(s, i, j);
    }
  }

  /** The hardware id of the source's own comment yields version "3.31". */
  lemma HardwareIdExample()
    ensures SearchVersion("362001000762+U-CS532AE(LT)V3.31.bin") == Some("3.31")
  {
    var hid := "362001000762+U-CS532AE(LT)V3.31.bin";
    assert hid[26] == 'V' && hid[27..31] == "3.31" && hid[31..35] == ".bin" && |hid| == 35;
    assert MatchesAt(hid, 27, 31);
    SearchFindsEveryMatch(hid, 27, 31);
  }

  /** `$` also matches before a final newline, so a trailing "\n" does not hide the version. */
  lemma TrailingNewlineExample()
    ensures SearchVersion("U-CS532AE(LT)V3.31.bin\n") == Some("3.31")
  {
    var hid := "U-CS532AE(LT)V3.31.bin\n";
    assert hid[13] == 'V' && hid[14..18] == "3.31" && hid[18..22] == ".bin" && |hid| == 23;
    assert hid[22] == '\n';
    assert MatchesAt(hid, 14, 18);
    SearchFindsEveryMatch(hid, 14, 18);
  }

  /** Without the 'V' in front of the number there is no match. */
  lemma MissingPrefixExample()
    ensures SearchVersion("U-CS532AE(LT)3.31.bin") == None
  {
    var hid := "U-CS532AE(LT)3.31.bin";
    assert hid[12] == ')' && hid[13..17] == "3.31" && hid[17..21] == ".bin" && |hid| == 21;
    assert BinAt(hid, 17);
    SuffixStartComplete(hid, 17);
    RunStartIs(hid, 17, 13);
  }

  /** ".bin" must be the end of the string. */
  lemma MissingAnchorExample()
    ensures SearchVersion("V3.31.bin.old") == None
  {
    var hid := "V3.31.bin.old";
    assert hid[12] == 'd';
  }
}
