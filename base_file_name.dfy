/** How each gateway service recovers a Java file name from the name of a
    report file: drop the report extension, a leading hash and the agents'
    decorations, then make sure the name ends in `.java`. */
module BaseFileName {
  import opened Wrappers
  import opened Text

  predicate IsHex(c: char) { '0' <= c <= '9' || 'a' <= c <= 'f' }

  /** The length of the run of `[a-f0-9]` characters opening `s`. */
  function HexRun(s: string): (n: nat)
    ensures n <= |s|
    ensures forall i :: 0 <= i < n ==> IsHex(s[i])
    ensures n < |s| ==> !IsHex(s[n])
  {
    if s == [] || !IsHex(s[0]) then 0 else 1 + HexRun(s[1..])
  }

  /** `/^[a-f0-9]+_/.test(s)`: the greedy run is followed by `_`. */
  predicate HasHashPrefix(s: string)
  {
    0 < HexRun(s) < |s| && s[HexRun(s)] == '_'
  }

  /** `s.replace(/^[a-f0-9]+_/, '')` when the test succeeds. */
  function StripHash(s: string): string
  {
    if HasHashPrefix(s) then s[HexRun(s) + 1..] else s
  }

  /** A leading hash and its underscore are removed, whatever follows. */
  lemma StripHashPrefix(h: string, rest: string)
    requires h != [] && forall i :: 0 <= i < |h| ==> IsHex(h[i])
    ensures StripHash(h + "_" + rest) == rest
  {
    var s := h + "_" + rest;
    assert s[|h|] == '_';
    assert s[|h| + 1..] == rest;
  }

  /** The chain `.replace(ps[0], '').replace(ps[1], '')...`. */
  function StripAll(s: string, ps: seq<string>): string
    decreases ps
  {
    if ps == [] then s else StripAll(ReplaceFirst(s, ps[0], ""), ps[1..])
  }

  /** A name holding none of the patterns passes through unchanged. */
  lemma {:induction false} StripAllClean(s: string, ps: seq<string>)
    requires forall p :: p in ps ==> !Contains(s, p)
    ensures StripAll(s, ps) == s
  {
    if ps != [] {
      ReplaceFirstSpec(s, ps[0], "");
      assert forall p :: p in ps[1..] ==> p in ps;
      StripAllClean(s, ps[1..]);
    }
  }

  /** `if (!s.endsWith('.java')) s += '.java'`. */
  function EnsureJava(s: string): (r: string)
    ensures EndsWith(r, ".java")
  {
    if EndsWith(s, ".java") then s
    else
      var r := s + ".java";
      assert r[|r| - 5..] == ".java";
      r
  }

  /** Appending `.java` is a retraction: it keeps names that already end
      in `.java` and is idempotent. */
  lemma EnsureJavaFixed(s: string)
    ensures EndsWith(s, ".java") <==> EnsureJava(s) == s
    ensures EnsureJava(EnsureJava(s)) == EnsureJava(s)
  {
  }

  const OptimizationTags: seq<string> :=
    [ "_extracted-", "optimization_", "_report", "_optimization-report",
      ".optimization-report", ".optimization", "optimization-report_",
      "optimization-report.", "optimization.", "maintainability_",
      "data-structure_", "compliance_" ]

  const ComplianceTags: seq<string> :=
    [ "_extracted-", "compliance_", "_report", "_compliance", ".compliance",
      "maintainability_", "data-structure_" ]

  const DataStructureTags: seq<string> :=
    [ "_extracted-", "data_structure_", "_report", "_analysis" ]

  /** `extractBaseFileName` of the optimization service. */
  function OptimizationBaseName(json: string): (r: string)
    ensures EndsWith(r, ".java")
  {
    EnsureJava(StripAll(StripHash(ReplaceFirst(json, ".json", "")), OptimizationTags))
  }

  /** `extractBaseFileName` of the compliance service. */
  function ComplianceBaseName(json: string): (r: string)
    ensures EndsWith(r, ".java")
  {
    var s := ReplaceFirst(ReplaceFirst(json, ".report.json", ""), ".json", "");
    EnsureJava(StripAll(StripHash(s), ComplianceTags))
  }

  /** `extractBaseFileName` of the data-structure service. */
  function DataStructureBaseName(json: string): (r: string)
    ensures EndsWith(r, ".java")
  {
    EnsureJava(StripAll(StripHash(ReplaceFirst(json, ".report.json", "")), DataStructureTags))
  }

  // Round trips: a report named `<hash>_<name>.json` or
  // `<hash>_<name>.report.json` gives back `<name>`.

  lemma NotAtChar(s: string, p: string, i: nat, d: nat)
    requires d < |p| && i + d < |s| && s[i + d] != p[d]
    ensures !IsAt(s, p, i)
  {
  }

  /** An occurrence inside the right-hand part of a concatenation. */
  lemma IsAtShift(x: string, y: string, p: string, j: nat)
    requires j + |p| <= |y|
    ensures IsAt(x + y, p, |x| + j) <==> IsAt(y, p, j)
  {
    assert (x + y)[|x| + j..|x| + j + |p|] == y[j..j + |p|];
  }

  /** An extension starting with a dot occurs in `<hash>_<name>` only where
      it occurs in the name. */
  lemma HashedClean(h: string, b: string, ext: string)
    requires forall i :: 0 <= i < |h| ==> IsHex(h[i])
    requires ext != [] && ext[0] == '.' && !Contains(b, ext)
    ensures !Contains(h + "_" + b, ext)
  {
    var s := h + "_" + b;
    forall i: nat | i <= |s|
      ensures !IsAt(s, ext, i)
    {
      if i <= |h| && i + |ext| <= |s| {
        assert s[i] == if i < |h| then h[i] else '_';
        NotAtChar(s, ext, i, 0);
      } else if i > |h| && i + |ext| <= |s| {
        IsAtShift(h + "_", b, ext, i - |h| - 1);
      }
    }
  }

  /** An extension cannot straddle the end of a name ending in `.java`. */
  lemma NoStraddle(b: string, ext: string, j: nat)
    requires EndsWith(b, ".java")
    requires ext == ".json" || ext == ".report.json"
    requires j < |b| < j + |ext|
    ensures !IsAt(b + ext, ext, j)
  {
    var s := b + ext;
    if j + |ext| <= |s| {
      if j > |b| - 5 {
        assert s[j] == b[j] == ".java"[j - (|b| - 5)];
        NotAtChar(s, ext, j, 0);
      } else if j == |b| - 5 {
        if ext == ".report.json" {
          assert s[j + 1] == 'j';
          NotAtChar(s, ext, j, 1);
        }
      } else {
        var d := |b| - 5 - j;
        assert s[j + d] == '.';
        NotAtChar(s, ext, j, d);
      }
    }
  }

  /** In `<name><ext>` with `<name>` ending in `.java` and free of `<ext>`,
      there is no `<ext>` before the final one. */
  lemma NoEarlierExt(b: string, ext: string, j: nat)
    requires EndsWith(b, ".java") && !Contains(b, ext)
    requires ext == ".json" || ext == ".report.json"
    requires j < |b|
    ensures !IsAt(b + ext, ext, j)
  {
    if j + |ext| <= |b| {
      assert (b + ext)[j..j + |ext|] == b[j..j + |ext|];
      assert !IsAt(b, ext, j);
    } else {
      NoStraddle(b, ext, j);
    }
  }

  /** In `<hash>_<name><ext>` with `<name>` ending in `.java` and free of
      `<ext>`, the first `<ext>` is the final one. */
  lemma ExtAtEnd(h: string, b: string, ext: string)
    requires forall i :: 0 <= i < |h| ==> IsHex(h[i])
    requires EndsWith(b, ".java") && !Contains(b, ext)
    requires ext == ".json" || ext == ".report.json"
    ensures IndexOf(h + "_" + b + ext, ext) == Some(|h| + 1 + |b|)
  {
    var s := h + "_" + b + ext;
    var k := |h| + 1 + |b|;
    assert s[k..] == ext;
    assert IsAt(s, ext, k);
    forall i: nat | i < k
      ensures !IsAt(s, ext, i)
    {
      NoEarlierHashed(h, b, ext, i);
    }
  }

  lemma NoEarlierHashed(h: string, b: string, ext: string, i: nat)
    requires forall i :: 0 <= i < |h| ==> IsHex(h[i])
    requires EndsWith(b, ".java") && !Contains(b, ext)
    requires ext == ".json" || ext == ".report.json"
    requires i < |h| + 1 + |b|
    ensures !IsAt(h + "_" + b + ext, ext, i)
  {
    var s := h + "_" + b + ext;
    assert s == (h + "_") + (b + ext);
    if i <= |h| {
      assert s[i] == if i < |h| then h[i] else '_';
      NotAtChar(s, ext, i, 0);
    } else {
      NoEarlierExt(b, ext, i - |h| - 1);
      IsAtShift(h + "_", b + ext, ext, i - |h| - 1);
    }
  }

  /** Cutting the final extension leaves `<hash>_<name>`. */
  lemma CutExt(h: string, b: string, ext: string)
    requires forall i :: 0 <= i < |h| ==> IsHex(h[i])
    requires EndsWith(b, ".java") && !Contains(b, ext)
    requires ext == ".json" || ext == ".report.json"
    ensures ReplaceFirst(h + "_" + b + ext, ext, "") == h + "_" + b
  {
    ExtAtEnd(h, b, ext);
    var s := h + "_" + b + ext;
    assert s[..|h| + 1 + |b|] == h + "_" + b;
  }

  /** The optimization service recovers `<name>` from `<hash>_<name>.json`. */
  lemma OptimizationRoundTrip(h: string, b: string)
    requires h != [] && forall i :: 0 <= i < |h| ==> IsHex(h[i])
    requires EndsWith(b, ".java") && !Contains(b, ".json")
    requires forall p :: p in OptimizationTags ==> !Contains(b, p)
    ensures OptimizationBaseName(h + "_" + b + ".json") == b
  {
    CutExt(h, b, ".json");
    StripHashPrefix(h, b);
    StripAllClean(b, OptimizationTags);
  }

  /** The compliance service recovers `<name>` from
      `<hash>_<name>.report.json`. */
  lemma ComplianceRoundTrip(h: string, b: string)
    requires h != [] && forall i :: 0 <= i < |h| ==> IsHex(h[i])
    requires EndsWith(b, ".java") && !Contains(b, ".json") && !Contains(b, ".report.json")
    requires forall p :: p in ComplianceTags ==> !Contains(b, p)
    ensures ComplianceBaseName(h + "_" + b + ".report.json") == b
  {
    CutExt(h, b, ".report.json");
    HashedClean(h, b, ".json");
    ReplaceFirstSpec(h + "_" + b, ".json", "");
    StripHashPrefix(h, b);
    StripAllClean(b, ComplianceTags);
  }

  /** The data-structure service recovers `<name>` from
      `<hash>_<name>.report.json`. */
  lemma DataStructureRoundTrip(h: string, b: string)
    requires h != [] && forall i :: 0 <= i < |h| ==> IsHex(h[i])
    requires EndsWith(b, ".java") && !Contains(b, ".report.json")
    requires forall p :: p in DataStructureTags ==> !Contains(b, p)
    ensures DataStructureBaseName(h + "_" + b + ".report.json") == b
  {
    CutExt(h, b, ".report.json");
    StripHashPrefix(h, b);
    StripAllClean(b, DataStructureTags);
  }
}
