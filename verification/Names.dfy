/** Resource names derived from a volume id (src/provision.rs). */
module Names {
  function Dashed(c: char): char {
    if c == '.' || c == '_' then '-' else c
  }

  function VolumeName(id: string): string {
    seq(|id|, i requires 0 <= i < |id| => Dashed(id[i]))
  }

  function BackingClaimName(vn: string): string {
    vn + "-backing"
  }

  function SharePodName(vn: string): string {
    "share-manager-" + vn
  }

  function StateCmName(vn: string): string {
    "state-" + vn
  }

  /** What a volume's name looks like: the id with '-' for every '.' and '_'. An id
      without these is its own name. */
  lemma VolumeNameMeans(id: string)
    ensures var vn := VolumeName(id);
      && |vn| == |id| && '.' !in vn && '_' !in vn
      && (forall i | 0 <= i < |id| && id[i] != '.' && id[i] != '_' :: vn[i] == id[i])
      && (forall i | 0 <= i < |id| :: vn[i] == '-' <==> id[i] in {'.', '_', '-'})
      && ('.' !in id && '_' !in id ==> vn == id)
  {
  }

  /** The names of a volume's objects, spelled out. */
  lemma DerivedNamesMean(id: string)
    ensures var vn := VolumeName(id);
      && |SharePodName(vn)| == |id| + 14 && SharePodName(vn)[..14] == "share-manager-" && SharePodName(vn)[14..] == vn
      && |BackingClaimName(vn)| == |id| + 8 && BackingClaimName(vn)[..|id|] == vn
      && BackingClaimName(vn)[|id|..] == "-backing"
      && |StateCmName(vn)| == |id| + 6 && StateCmName(vn)[..6] == "state-" && StateCmName(vn)[6..] == vn
  {
  }

  predicate IsDash(c: char) {
    c == '.' || c == '_' || c == '-'
  }

  /** The ids agree once '.', '_' and '-' are identified. */
  ghost predicate SameUpToDashes(a: string, b: string) {
    |a| == |b| && forall i | 0 <= i < |a| :: a[i] == b[i] || (IsDash(a[i]) && IsDash(b[i]))
  }

  lemma AppendInjective(a: string, b: string, suffix: string)
    ensures a + suffix == b + suffix ==> a == b
  {
    if a + suffix == b + suffix {
      assert (a + suffix)[..|a|] == a && (b + suffix)[..|b|] == b;
    }
  }

  lemma PrependInjective(a: string, b: string, prefix: string)
    ensures prefix + a == prefix + b ==> a == b
  {
    assert (prefix + a)[|prefix|..] == a && (prefix + b)[|prefix|..] == b;
  }

  /** Two volumes share a claim, pod, service or state ConfigMap name exactly
      when their ids agree after identifying '.', '_' and '-'. */
  lemma NamesCollide(a: string, b: string)
    ensures VolumeName(a) == VolumeName(b) <==> SameUpToDashes(a, b)
    ensures BackingClaimName(VolumeName(a)) == BackingClaimName(VolumeName(b)) <==> SameUpToDashes(a, b)
    ensures SharePodName(VolumeName(a)) == SharePodName(VolumeName(b)) <==> SameUpToDashes(a, b)
    ensures StateCmName(VolumeName(a)) == StateCmName(VolumeName(b)) <==> SameUpToDashes(a, b)
  {
    var x, y := VolumeName(a), VolumeName(b);
    if x == y {
      forall i | 0 <= i < |a| ensures a[i] == b[i] || (IsDash(a[i]) && IsDash(b[i])) {
        assert x[i] == Dashed(a[i]) && y[i] == Dashed(b[i]);
      }
    }
    AppendInjective(x, y, "-backing");
    PrependInjective(x, y, "share-manager-");
    PrependInjective(x, y, "state-");
  }
}
