/**
 * Deriving the watched process name and the game prefix from the first
 * non-option argument (src/main.c): the name is copied into a 64-byte buffer,
 * and, when no prefix was given with -g, the prefix is the name with the first
 * architecture suffix of a fixed list removed (compared ignoring ASCII case).
 */
module ProcessName {
  import opened CStrings

  /** MAX_PROCESS_NAME: the size of the kill_process_name and game_prefix buffers. */
  const MaxProcessName: nat := 64

  /** The architecture suffixes, in the order they are tried. */
  const Suffixes: seq<string> :=
    [".x86_64", ".x86", ".aarch64", ".arm64", ".armhf", ".arm", ".32", ".64"]

  /** The name with the first suffix of sfx that it ends with (ignoring case) removed. */
  function StripFirstSuffix(name: string, sfx: seq<string>): string
  {
    if sfx == [] then name
    else if CaseEndsWith(name, sfx[0]) then name[..|name| - |sfx[0]|]
    else StripFirstSuffix(name, sfx[1..])
  }

  /** The stripped name is a prefix of the name. */
  lemma {:induction false} StripFirstSuffixIsPrefix(name: string, sfx: seq<string>)
    ensures var r := StripFirstSuffix(name, sfx); |r| <= |name| && r == name[..|r|]
  {
    if sfx != [] && !CaseEndsWith(name, sfx[0]) {
      StripFirstSuffixIsPrefix(name, sfx[1..]);
    }
  }

  /**
   * The first suffix in list order that matches is the one removed; if none
   * matches, the name is kept whole.
   */
  lemma {:induction false} StripFirstSuffixRemovesFirstMatch(name: string, sfx: seq<string>, k: nat)
    requires k < |sfx| && CaseEndsWith(name, sfx[k])
    requires forall j :: 0 <= j < k ==> !CaseEndsWith(name, sfx[j])
    ensures StripFirstSuffix(name, sfx) == name[..|name| - |sfx[k]|]
    ensures StripFirstSuffix(name, sfx) + name[|name| - |sfx[k]|..] == name
  {
    if k > 0 {
      assert sfx[1..][k - 1] == sfx[k];
      StripFirstSuffixRemovesFirstMatch(name, sfx[1..], k - 1);
    }
    assert name[..|name| - |sfx[k]|] + name[|name| - |sfx[k]|..] == name;
  }

  /** A name that ends with none of the suffixes is kept whole. */
  lemma {:induction false} StripFirstSuffixNoMatch(name: string, sfx: seq<string>)
    requires forall j :: 0 <= j < |sfx| ==> !CaseEndsWith(name, sfx[j])
    ensures StripFirstSuffix(name, sfx) == name
  {
    if sfx != [] {
      assert !CaseEndsWith(name, sfx[0]);
      StripFirstSuffixNoMatch(name, sfx[1..]);
    }
  }

  /** The last three characters of a suffix, case-folded. */
  function Tail3(s: string): seq<char>
    requires |s| >= 3
  {
    [ToLower(s[|s| - 3]), ToLower(s[|s| - 2]), ToLower(s[|s| - 1])]
  }

  /** No suffix of the list ends with another one, so the list order never matters. */
  lemma SuffixesSuffixFree(i: nat, j: nat)
    requires i < |Suffixes| && j < |Suffixes| && i != j
    ensures !CaseEndsWith(Suffixes[i], Suffixes[j])
  {
    var a, b := Suffixes[i], Suffixes[j];
    assert Tail3(a) != Tail3(b);
  }

  /** A name ends with at most one of the suffixes. */
  lemma AtMostOneSuffixMatches(name: string, i: nat, j: nat)
    requires i < |Suffixes| && j < |Suffixes|
    requires CaseEndsWith(name, Suffixes[i]) && CaseEndsWith(name, Suffixes[j])
    ensures i == j
  {
    if i != j {
      if |Suffixes[j]| <= |Suffixes[i]| {
        CaseEndsWithNested(name, Suffixes[i], Suffixes[j]);
        SuffixesSuffixFree(i, j);
      } else {
        CaseEndsWithNested(name, Suffixes[j], Suffixes[i]);
        SuffixesSuffixFree(j, i);
      }
    }
  }

  /** Whichever suffix of the list a name ends with, that suffix is the one stripped. */
  lemma StripMatchingSuffix(name: string, k: nat)
    requires k < |Suffixes| && CaseEndsWith(name, Suffixes[k])
    ensures StripFirstSuffix(name, Suffixes) == name[..|name| - |Suffixes[k]|]
  {
    forall j | 0 <= j < k
      ensures !CaseEndsWith(name, Suffixes[j])
    {
      if CaseEndsWith(name, Suffixes[j]) {
        AtMostOneSuffixMatches(name, j, k);
      }
    }
    StripFirstSuffixRemovesFirstMatch(name, Suffixes, k);
  }

  /**
   * The loop over the non-option arguments: the first one, cut to 63
   * characters, is the process to watch; when no prefix was given and that
   * name is not empty, the prefix is the name stripped of its suffix.
   */
  method DeriveNames(gamePrefix: string, arguments: seq<string>)
    returns (killProcessName: string, prefix: string)
    ensures killProcessName == if |arguments| > 0 then Truncate(arguments[0], MaxProcessName - 1) else ""
    ensures |killProcessName| < MaxProcessName
    ensures prefix ==
      if |gamePrefix| == 0 && |killProcessName| > 0 then StripFirstSuffix(killProcessName, Suffixes)
      else gamePrefix
  {
    killProcessName, prefix := "", gamePrefix;
    if |arguments| > 0 {
      killProcessName := Truncate(arguments[0], MaxProcessName - 1);
      if |gamePrefix| == 0 && |killProcessName| > 0 {
        var changed := false;
        var j := 0;
        while j < |Suffixes|
          invariant 0 <= j <= |Suffixes|
          invariant StripFirstSuffix(killProcessName, Suffixes) == StripFirstSuffix(killProcessName, Suffixes[j..])
        {
          if CaseEndsWith(killProcessName, Suffixes[j]) {
            prefix := killProcessName[..|killProcessName| - |Suffixes[j]|];
            changed := true;
            break;
          }
          assert Suffixes[j..][1..] == Suffixes[j + 1..];
          j := j + 1;
        }
        if !changed {
          prefix := killProcessName;
        }
      }
    }
  }
}
