/** Remote naming of rotated files: the name layout
    `{base}-{TAG}-{YYYYMMDDHHMMSS}-{NNNNN}.{ext}` and the choice of the 5-digit
    `NNNNN`, the smallest number not yet claimed in the remote directory. */
module Naming {
  import opened Wrappers
  import opened Text

  /** How many 5-digit suffixes exist (00000 to 99999). */
  const SuffixCount: nat := 100000
  const SuffixWidth: nat := 5

  /** A `datetime.strftime("%Y%m%d%H%M%S")` value: fourteen ASCII digits. */
  type Stamp = s: string | |s| == 14 && AllDigits(s) witness "00000000000000"

  /** What listing the remote directory produced. */
  datatype Listing =
    | Listed(names: seq<string>)  // chdir and listdir succeeded
    | ListingFailed               // IOError from chdir or listdir: counts as no files
    | Unreachable                 // connecting or logging in failed: any other exception

  function ListedNames(listing: Listing): seq<string>
  {
    if listing.Listed? then listing.names else []
  }

  // ---------------------------------------------------------------------
  // The name layout
  // ---------------------------------------------------------------------

  /** The stream tag: `JSON` for the record stream, else the upper-cased language code. */
  function StreamTag(fileType: string, languageCode: string): string
  {
    if fileType == "json" then "JSON" else Upper(languageCode)
  }

  /** The file extension: `json` for the record stream, `txt` for every other stream. */
  function Extension(fileType: string): (ext: string)
    ensures ext in {"json", "txt"}
    ensures ext == "json" <==> fileType == "json"
  {
    if fileType == "json" then "json" else "txt"
  }

  /** `{base_filename}-{TAG}-{timestamp}-`, the part every file of one stream
      created in the same second shares. */
  function FullPrefix(baseFilename: string, tag: string, stamp: Stamp): string
  {
    baseFilename + "-" + tag + "-" + stamp + "-"
  }

  function NewFileName(fullPrefix: string, suffix: string, extension: string): string
  {
    fullPrefix + suffix + "." + extension
  }

  // ---------------------------------------------------------------------
  // Which suffixes a listing already uses
  // ---------------------------------------------------------------------

  /** `file[len(full_prefix):].split('.')[0]`: what follows the prefix, up to the first dot. */
  function SuffixPart(name: string, fullPrefix: string): string
    requires StartsWith(name, fullPrefix)
  {
    Split(name[|fullPrefix|..], '.')[0]
  }

  /** The suffix a listed name occupies: only a name that starts with the full
      prefix and whose suffix part is exactly five digits counts. */
  function ClaimedSuffix(name: string, fullPrefix: string): (r: Option<nat>)
    ensures r.Some? ==> r.value < SuffixCount
    ensures r.Some? <==> StartsWith(name, fullPrefix)
                         && |SuffixPart(name, fullPrefix)| == SuffixWidth
                         && AllDigits(SuffixPart(name, fullPrefix))
  {
    if StartsWith(name, fullPrefix) then
      var part := SuffixPart(name, fullPrefix);
      if AllDigits(part) && |part| == SuffixWidth then Some(DigitsValue(part)) else None
    else None
  }

  /** The set of suffixes the names occupy under `fullPrefix`. */
  function UsedSuffixes(names: seq<string>, fullPrefix: string): (used: set<nat>)
    // only five-digit suffixes are collected
    ensures forall k :: k in used ==> k < SuffixCount
    decreases |names|
  {
    if names == [] then {}
    else
      var earlier := UsedSuffixes(names[..|names| - 1], fullPrefix);
      match ClaimedSuffix(Last(names), fullPrefix)
      case Some(k) => earlier + {k}
      case None => earlier
  }

  /** A suffix is used exactly when some listed name claims it. */
  lemma {:induction false} UsedSuffixesMembers(names: seq<string>, fullPrefix: string, k: nat)
    ensures k in UsedSuffixes(names, fullPrefix)
        <==> exists i :: 0 <= i < |names| && ClaimedSuffix(names[i], fullPrefix) == Some(k)
    decreases |names|
  {
    if names != [] {
      var init := names[..|names| - 1];
      UsedSuffixesMembers(init, fullPrefix, k);
      if k in UsedSuffixes(names, fullPrefix) {
        if k in UsedSuffixes(init, fullPrefix) {
          var i :| 0 <= i < |init| && ClaimedSuffix(init[i], fullPrefix) == Some(k);
          assert names[i] == init[i];
        } else {
          assert ClaimedSuffix(names[|names| - 1], fullPrefix) == Some(k);
        }
      } else {
        forall i | 0 <= i < |names|
          ensures ClaimedSuffix(names[i], fullPrefix) != Some(k)
        {
          if i < |init| {
            assert names[i] == init[i];
          }
        }
      }
    }
  }

  // ---------------------------------------------------------------------
  // Choosing the smallest free suffix
  // ---------------------------------------------------------------------

  /** The smallest number in `[from, SuffixCount)` that is not in `used`, if any. */
  function FirstFree(used: set<nat>, from: nat): (r: Option<nat>)
    requires from <= SuffixCount
    ensures r.Some? ==> from <= r.value < SuffixCount && r.value !in used
    ensures r.Some? ==> forall j :: from <= j < r.value ==> j in used
    ensures r.None? ==> forall j :: from <= j < SuffixCount ==> j in used
    decreases SuffixCount - from
  {
    if from == SuffixCount then None
    else if from !in used then Some(from)
    else FirstFree(used, from + 1)
  }

  /** The 5-digit suffix `_get_next_suffix` returns for a full prefix, given
      what listing the remote directory produced. */
  function NextSuffix(listing: Listing, fullPrefix: string): (r: Option<string>)
    ensures r.Some? ==>
      var used := UsedSuffixes(ListedNames(listing), fullPrefix);
      && |r.value| == SuffixWidth && AllDigits(r.value)
      && DigitsValue(r.value) !in used
      && forall j :: 0 <= j < DigitsValue(r.value) ==> j in used
    ensures r.None? <==> (listing.Unreachable? ||
                          forall j :: 0 <= j < SuffixCount ==> j in UsedSuffixes(ListedNames(listing), fullPrefix))
  {
    if listing.Unreachable? then None
    else
      match FirstFree(UsedSuffixes(ListedNames(listing), fullPrefix), 0)
      case Some(i) =>
        PadDigitsValue(i, SuffixWidth);
        Some(PadDigits(i, SuffixWidth))
      case None => None
  }

  /** `_get_next_suffix`: collect the suffixes the listing uses, then scan
      0..99999 for the first one not among them. */
  method GetNextSuffix(listing: Listing, fullPrefix: string) returns (r: Option<string>)
    ensures r == NextSuffix(listing, fullPrefix)
  {
    if listing.Unreachable? {
      return None;
    }
    var existing := ListedNames(listing);
    var suffixes: seq<nat> := [];
    var n := 0;
    while n < |existing|
      invariant 0 <= n <= |existing|
      invariant forall k :: k in suffixes <==> k in UsedSuffixes(existing[..n], fullPrefix)
    {
      var file := existing[n];
      assert existing[..n + 1][..n] == existing[..n];
      if StartsWith(file, fullPrefix) {
        var part := Split(file[|fullPrefix|..], '.')[0];
        if AllDigits(part) && |part| == SuffixWidth {
          suffixes := suffixes + [DigitsValue(part)];
        }
      }
      n := n + 1;
    }
    assert existing[..n] == existing;
    ghost var used := UsedSuffixes(existing, fullPrefix);
    var i := 0;
    while i < SuffixCount
      invariant 0 <= i <= SuffixCount
      invariant forall j :: 0 <= j < i ==> j in used
    {
      if i !in suffixes {
        var v := FirstFree(used, 0);
        assert v == Some(i);
        return Some(PadDigits(i, SuffixWidth));
      }
      i := i + 1;
    }
    return None;
  }

  // ---------------------------------------------------------------------
  // What the choice guarantees
  // ---------------------------------------------------------------------

  /** A name built from a prefix and a padded suffix claims exactly that suffix:
      the allocator recognises the names it makes. */
  lemma NameClaimsItsSuffix(fullPrefix: string, i: nat, extension: string)
    requires i < SuffixCount
    ensures ClaimedSuffix(NewFileName(fullPrefix, PadDigits(i, SuffixWidth), extension), fullPrefix) == Some(i)
  {
    var pad := PadDigits(i, SuffixWidth);
    var name := NewFileName(fullPrefix, pad, extension);
    assert name[|fullPrefix|..] == pad + ['.'] + extension;
    assert '.' !in pad by {
      forall j | 0 <= j < |pad| ensures pad[j] != '.' { assert IsDigit(pad[j]); }
    }
    SplitAtFirstSep(pad, '.', extension);
    PadDigitsValue(i, SuffixWidth);
  }

  /** Non-collision: no listed name with the prefix carries the chosen suffix. */
  lemma {:induction false} NextSuffixIsUnused(listing: Listing, fullPrefix: string, name: string)
    requires NextSuffix(listing, fullPrefix).Some?
    requires name in ListedNames(listing) && StartsWith(name, fullPrefix)
    ensures SuffixPart(name, fullPrefix) != NextSuffix(listing, fullPrefix).value
  {
    var names := ListedNames(listing);
    var s := NextSuffix(listing, fullPrefix).value;
    var i :| 0 <= i < |names| && names[i] == name;
    UsedSuffixesMembers(names, fullPrefix, DigitsValue(s));
    assert ClaimedSuffix(names[i], fullPrefix) != Some(DigitsValue(s));
  }

  /** Non-collision for the whole name: the file name built from the chosen
      suffix is not in the listing. */
  lemma NewFileNameIsFresh(listing: Listing, fullPrefix: string, extension: string)
    requires NextSuffix(listing, fullPrefix).Some?
    ensures NewFileName(fullPrefix, NextSuffix(listing, fullPrefix).value, extension) !in ListedNames(listing)
  {
    var s := NextSuffix(listing, fullPrefix).value;
    var name := NewFileName(fullPrefix, s, extension);
    forall n | n in ListedNames(listing) && StartsWith(n, fullPrefix)
      ensures SuffixPart(n, fullPrefix) != s
    {
      NextSuffixIsUnused(listing, fullPrefix, n);
    }
    assert name[|fullPrefix|..] == s + ['.'] + extension;
    assert '.' !in s by {
      forall j | 0 <= j < |s| ensures s[j] != '.' { assert IsDigit(s[j]); }
    }
    SplitAtFirstSep(s, '.', extension);
    assert StartsWith(name, fullPrefix) && SuffixPart(name, fullPrefix) == s;
  }

  /** Once a file named with the chosen suffix is in the remote directory, the
      next allocation for the same prefix picks a different suffix. */
  lemma UploadedSuffixIsNotReused(names: seq<string>, fullPrefix: string, extension: string)
    requires NextSuffix(Listed(names), fullPrefix).Some?
    ensures var s := NextSuffix(Listed(names), fullPrefix).value;
            NextSuffix(Listed(names + [NewFileName(fullPrefix, s, extension)]), fullPrefix) != Some(s)
  {
    var s := NextSuffix(Listed(names), fullPrefix).value;
    var name := NewFileName(fullPrefix, s, extension);
    var more := names + [name];
    DigitsValuePad(s);
    NameClaimsItsSuffix(fullPrefix, DigitsValue(s), extension);
    assert more[..|more| - 1] == names;
    assert DigitsValue(s) in UsedSuffixes(more, fullPrefix);
  }

  /** Every name `prefix + NNNNN + ext`, for all 100000 suffixes in order. */
  function FullListing(fullPrefix: string, extension: string): seq<string>
  {
    seq(SuffixCount, i requires 0 <= i < SuffixCount => NewFileName(fullPrefix, PadDigits(i, SuffixWidth), extension))
  }

  /** Exhaustion: when all 100000 suffixes are taken there is no result. */
  lemma AllSuffixesTaken(fullPrefix: string, extension: string)
    ensures NextSuffix(Listed(FullListing(fullPrefix, extension)), fullPrefix) == None
  {
    var names := FullListing(fullPrefix, extension);
    forall j | 0 <= j < SuffixCount
      ensures j in UsedSuffixes(names, fullPrefix)
    {
      assert names[j] == NewFileName(fullPrefix, PadDigits(j, SuffixWidth), extension);
      NameClaimsItsSuffix(fullPrefix, j, extension);
      UsedSuffixesMembers(names, fullPrefix, j);
    }
  }

  /** Names for suffixes 00000 to 00042 with 00007 missing. */
  function GappedListing(fullPrefix: string, extension: string): seq<string>
  {
    seq(42, i requires 0 <= i < 42 => NewFileName(fullPrefix, PadDigits(if i < 7 then i else i + 1, SuffixWidth), extension))
  }

  /** A gap in the sequence is filled first: with 00000..00042 present except
      00007, the next suffix is 00007. */
  lemma GapIsFilledFirst(fullPrefix: string, extension: string)
    ensures NextSuffix(Listed(GappedListing(fullPrefix, extension)), fullPrefix) == Some("00007")
  {
    var names := GappedListing(fullPrefix, extension);
    var used := UsedSuffixes(names, fullPrefix);
    forall j | 0 <= j < 7 ensures j in used {
      assert names[j] == NewFileName(fullPrefix, PadDigits(j, SuffixWidth), extension);
      NameClaimsItsSuffix(fullPrefix, j, extension);
      UsedSuffixesMembers(names, fullPrefix, j);
    }
    forall i | 0 <= i < 42 ensures ClaimedSuffix(names[i], fullPrefix) != Some(7) {
      NameClaimsItsSuffix(fullPrefix, if i < 7 then i else i + 1, extension);
    }
    UsedSuffixesMembers(names, fullPrefix, 7);
    var r := NextSuffix(Listed(names), fullPrefix);
    assert r.Some? && DigitsValue(r.value) == 7;
    DigitsValuePad(r.value);
    PaddedSeven();
  }

  lemma PaddedSeven()
    ensures PadDigits(7, SuffixWidth) == "00007"
  {
    assert PadDigits(0, 1) == "0";
    assert PadDigits(0, 2) == "00";
    assert PadDigits(0, 3) == "000";
    assert PadDigits(0, 4) == "0000";
  }

  /** A listing that fails with an IOError counts as an empty directory: the
      first suffix, 00000, is chosen. */
  lemma FailedListingCountsAsEmpty(fullPrefix: string)
    ensures NextSuffix(ListingFailed, fullPrefix) == Some("00000")
  {
    assert ListedNames(ListingFailed) == [];
    assert UsedSuffixes([], fullPrefix) == {};
    assert FirstFree({}, 0) == Some(0);
    assert PadDigits(0, 1) == "0";
    assert PadDigits(0, 2) == "00";
    assert PadDigits(0, 3) == "000";
    assert PadDigits(0, 4) == "0000";
    assert PadDigits(0, 5) == "00000";
  }
}
