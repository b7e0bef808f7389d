/**
 * Composite identifiers `<domain><delimiter><local code>` used for org units
 * and roles (utils.JoinCode, utils.SplitDomain, utils.SplitCode).
 *
 * The utilities themselves are not part of this model; they are modelled as
 * concatenation around one reserved delimiter character, split at its first
 * occurrence, with the empty string returned alongside an error.
 */
module Codec {
  import opened Wrappers

  /** The reserved separator between the domain part and the local code. */
  const Delimiter: char := '#'

  /** utils.JoinCode: the composite id of `code` inside `domainId`. */
  function JoinCode(domainId: string, code: string): (id: string)
    ensures |id| == |domainId| + 1 + |code|
    ensures Delimiter in id
  {
    assert (domainId + [Delimiter] + code)[|domainId|] == Delimiter;
    domainId + [Delimiter] + code
  }

  /** Position of the first delimiter in `s`, if any. */
  function FirstDelimiter(s: string): (r: Option<nat>)
    ensures r.None? <==> Delimiter !in s
    ensures r.Some? ==> r.value < |s| && s[r.value] == Delimiter && Delimiter !in s[..r.value]
  {
    if s == [] then None
    else if s[0] == Delimiter then Some(0)
    else match FirstDelimiter(s[1..])
      case None => None
      case Some(i) =>
        assert s[..i + 1] == [s[0]] + s[1..][..i];
        Some(i + 1)
  }

  /** utils.SplitDomain: the domain part of a composite id; None is the no-separator error. */
  function SplitDomain(id: string): (r: Option<string>)
    ensures r.None? <==> Delimiter !in id
    ensures r.Some? ==> Delimiter !in r.value && |r.value| < |id| && id[..|r.value|] == r.value
    ensures r.Some? ==> id[|r.value|] == Delimiter
  {
    match FirstDelimiter(id)
    case None => None
    case Some(i) => Some(id[..i])
  }

  /** utils.SplitCode: the local code of a composite id; None is the no-separator error. */
  function SplitCode(id: string): (r: Option<string>)
    ensures r.None? <==> Delimiter !in id
    ensures r.Some? ==> |r.value| < |id| && id[|id| - |r.value|..] == r.value
    ensures r.Some? ==> id[|id| - |r.value| - 1] == Delimiter
  {
    match FirstDelimiter(id)
    case None => None
    case Some(i) => Some(id[i + 1..])
  }

  /** The first delimiter of a joined id is the one JoinCode put there. */
  lemma FirstDelimiterOfJoin(domainId: string, code: string)
    requires Delimiter !in domainId
    ensures FirstDelimiter(JoinCode(domainId, code)) == Some(|domainId|)
  {
    var id := JoinCode(domainId, code);
    assert id[..|domainId|] == domainId;
    assert id[|domainId|] == Delimiter;
  }

  /** Splitting a joined id gives back both parts, whenever the domain holds no delimiter. */
  lemma SplitJoin(domainId: string, code: string)
    requires Delimiter !in domainId
    ensures SplitDomain(JoinCode(domainId, code)) == Some(domainId)
    ensures SplitCode(JoinCode(domainId, code)) == Some(code)
  {
    FirstDelimiterOfJoin(domainId, code);
    var id := JoinCode(domainId, code);
    assert id[..|domainId|] == domainId;
    assert id[|domainId| + 1..] == code;
  }

  /** Joining the two parts of a splittable id rebuilds it exactly. */
  lemma JoinSplit(id: string)
    requires Delimiter in id
    ensures SplitDomain(id).Some? && SplitCode(id).Some?
    ensures Delimiter !in SplitDomain(id).value
    ensures JoinCode(SplitDomain(id).value, SplitCode(id).value) == id
  {
    var i := FirstDelimiter(id).value;
    assert id == id[..i] + [id[i]] + id[i + 1..];
  }

  /** Within one domain, two composite ids are equal exactly when their local codes are. */
  lemma JoinCodeInjective(domainId: string, a: string, b: string)
    ensures JoinCode(domainId, a) == JoinCode(domainId, b) <==> a == b
  {
    if JoinCode(domainId, a) == JoinCode(domainId, b) {
      assert a == JoinCode(domainId, a)[|domainId| + 1..];
      assert b == JoinCode(domainId, b)[|domainId| + 1..];
    }
  }

  /** Across delimiter-free domains, a composite id determines both of its parts. */
  lemma JoinCodeDeterminesParts(d1: string, c1: string, d2: string, c2: string)
    requires Delimiter !in d1 && Delimiter !in d2
    requires JoinCode(d1, c1) == JoinCode(d2, c2)
    ensures d1 == d2 && c1 == c2
  {
    SplitJoin(d1, c1);
    SplitJoin(d2, c2);
  }
}
