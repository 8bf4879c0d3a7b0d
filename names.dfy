/**
 * The string surgery of utilities/hasmat.py: the split rule's
 * `organization.replace(" ", "-", 1).split("-", 1)` and the final
 * `site.replace("-", " ").split(" ")[0]`, both of which cut a name at its first
 * space or hyphen.
 */
module Names {
  import opened Wrappers
  import opened Text

  /** `organization.replace(" ", "-", 1).split("-", 1)`, unpacked into two names when it has two parts. */
  function SplitOrganization(organization: string): Option<(string, string)>
  {
    var parts := SplitOnce(ReplaceFirst(organization, ' ', '-'), '-');
    if |parts| == 2 then Some((parts[0], parts[1])) else None
  }

  /** The characters that end the first token of a name: space and hyphen. */
  predicate IsSeparator(c: char)
  {
    c == ' ' || c == '-'
  }

  /** Index of the first space or hyphen, or `|s|` when there is none. */
  function FirstSeparator(s: string): (r: nat)
    ensures r <= |s|
    ensures r < |s| ==> IsSeparator(s[r])
    ensures forall k :: 0 <= k < r ==> !IsSeparator(s[k])
  {
    if s == [] then 0
    else if IsSeparator(s[0]) then 0
    else 1 + FirstSeparator(s[1..])
  }

  /** What the split rule leaves once the first separator `m` is known. */
  function HalvesAt(organization: string, m: nat): (string, string)
    requires m < |organization|
  {
    (organization[..m],
     if organization[m] == ' ' then organization[m + 1..] else ReplaceFirst(organization[m + 1..], ' ', '-'))
  }

  /**
   * The split rule cuts at the first space or hyphen: there is no split when
   * the organization has neither; otherwise the first half is the text before
   * that separator and the second half the text after it, where a later first
   * space becomes a hyphen when the cut was made at a hyphen.
   */
  lemma {:induction false} SplitAtFirstSeparator(organization: string)
    ensures FirstSeparator(organization) == |organization| ==> SplitOrganization(organization) == None
    ensures FirstSeparator(organization) < |organization| ==>
              SplitOrganization(organization) == Some(HalvesAt(organization, FirstSeparator(organization)))
  {
    var s := organization;
    if FirstIndex(s, ' ') == |s| {
      SplitWithoutSpace(s);
    } else if FirstIndex(s, '-') < FirstIndex(s, ' ') {
      SplitAtHyphenBeforeSpace(s);
    } else {
      SplitAtSpace(s);
    }
  }

  lemma {:induction false} SplitWithoutSpace(s: string)
    requires FirstIndex(s, ' ') == |s|
    ensures FirstSeparator(s) == |s| ==> SplitOrganization(s) == None
    ensures FirstSeparator(s) < |s| ==> SplitOrganization(s) == Some(HalvesAt(s, FirstSeparator(s)))
  {
  }

  lemma {:induction false} SplitAtHyphenBeforeSpace(s: string)
    requires FirstIndex(s, '-') < FirstIndex(s, ' ') < |s|
    ensures FirstSeparator(s) < |s| && SplitOrganization(s) == Some(HalvesAt(s, FirstSeparator(s)))
  {
    var a := FirstIndex(s, ' ');
    var b := FirstIndex(s, '-');
    FirstSeparatorIs(s, b);
    var r := s[..a] + ['-'] + s[a + 1..];
    assert ReplaceFirst(s, ' ', '-') == r;
    FirstIndexIs(r, '-', b);
    assert SplitOnce(r, '-') == [r[..b], r[b + 1..]];
    assert r[..b] == s[..b];
    var tail := s[b + 1..];
    FirstIndexIs(tail, ' ', a - b - 1);
    var replaced := tail[..a - b - 1] + ['-'] + tail[a - b..];
    assert ReplaceFirst(tail, ' ', '-') == replaced;
    ReplacedTail(s, b, a, '-');
    assert SplitOrganization(s) == Some((r[..b], r[b + 1..]));
    assert s[b] == '-';
    assert HalvesAt(s, b) == (s[..b], replaced);
  }

  lemma {:induction false} SplitAtSpace(s: string)
    requires FirstIndex(s, ' ') < |s| && FirstIndex(s, ' ') <= FirstIndex(s, '-')
    ensures FirstSeparator(s) < |s| && SplitOrganization(s) == Some(HalvesAt(s, FirstSeparator(s)))
  {
    var a := FirstIndex(s, ' ');
    var r := ReplaceFirst(s, ' ', '-');
    FirstSeparatorIs(s, a);
    assert r == s[..a] + ['-'] + s[a + 1..];
    FirstIndexIs(r, '-', a);
    assert r[..a] == s[..a];
    assert r[a + 1..] == s[a + 1..];
  }

  lemma {:induction false} FirstSeparatorIs(s: string, m: nat)
    requires m < |s| && IsSeparator(s[m])
    requires forall k :: 0 <= k < m ==> !IsSeparator(s[k])
    ensures FirstSeparator(s) == m
  {
  }

  /** `site.replace("-", " ").split(" ")[0]`. */
  function SiteToken(site: string): string
  {
    FirstField(ReplaceAll(site, '-', ' '), ' ')
  }

  /** The token is the text before the first space or hyphen, and contains neither. */
  lemma {:induction false} SiteTokenIsPrefix(site: string)
    ensures SiteToken(site) == site[..FirstSeparator(site)]
    ensures forall i :: 0 <= i < |SiteToken(site)| ==> !IsSeparator(SiteToken(site)[i])
  {
  }

}
