/**
 * The BIOS UUID normaliser of the vSphere cloud provider (getvmUUID).
 *
 * The raw contents of the platform's product-UUID file are trimmed, checked
 * for the vendor prefix, stripped of spaces and hyphens, checked for length
 * and re-hyphenated in the 8-4-4-4-12 layout.  The file read itself is not
 * modelled: the function takes the file contents.
 */
module VmUuid {
  import opened Results

  /** The vendor prefix every VMware BIOS UUID starts with. */
  const UUIDPrefix: string := "VMware-"

  /** Number of characters the payload must have once separators are gone. */
  const PayloadLength: nat := 32

  /** Positions of the four hyphens of the canonical form. */
  const HyphenPositions: set<int> := {8, 13, 18, 23}

  datatype UuidError =
    | PrefixMismatch(contents: string)   // "Failed to match Prefix, ..."
    | LengthMismatch(contents: string)   // "Length check failed, ..."

  /** White space as Go's unicode.IsSpace defines it. */
  predicate IsSpace(c: char) {
    || c == '\t' || c == '\n' || c == '\U{000B}' || c == '\U{000C}' || c == '\r' || c == ' '
    || c == '\U{0085}' || c == '\U{00A0}' || c == '\U{1680}'
    || ('\U{2000}' <= c <= '\U{200A}')
    || c == '\U{2028}' || c == '\U{2029}' || c == '\U{202F}' || c == '\U{205F}' || c == '\U{3000}'
  }

  predicate AllSpace(s: string) {
    forall i :: 0 <= i < |s| ==> IsSpace(s[i])
  }

  function TrimLeft(s: string): (r: string)
    ensures |r| <= |s| && r == s[|s| - |r|..]
    ensures r == [] || !IsSpace(r[0])
    ensures AllSpace(s[..|s| - |r|])
  {
    if s != [] && IsSpace(s[0]) then TrimLeft(s[1..]) else s
  }

  function TrimRight(s: string): (r: string)
    ensures |r| <= |s| && r == s[..|r|]
    ensures r == [] || !IsSpace(r[|r| - 1])
    ensures AllSpace(s[|r|..])
  {
    if s != [] && IsSpace(s[|s| - 1]) then TrimRight(s[..|s| - 1]) else s
  }

  /** r sits in s at offset i with nothing but white space around it. */
  predicate PaddedAt(s: string, r: string, i: int) {
    0 <= i <= |s| - |r| && s[i..i + |r|] == r && AllSpace(s[..i]) && AllSpace(s[i + |r|..])
  }

  /** strings.TrimSpace: leading and trailing white space removed. */
  function TrimSpace(s: string): (r: string)
    ensures r == [] || (!IsSpace(r[0]) && !IsSpace(r[|r| - 1]))
    ensures exists i :: PaddedAt(s, r, i)
  {
    var l := TrimLeft(s);
    var r := TrimRight(l);
    TrimmedIsPadded(s, l, r);
    assert r != [] ==> r[0] == l[0];
    r
  }

  /** A part cut from the left of s and then from the right, with white space cut off both times, sits padded in s. */
  lemma TrimmedIsPadded(s: string, l: string, r: string)
    requires |l| <= |s| && l == s[|s| - |l|..] && AllSpace(s[..|s| - |l|])
    requires |r| <= |l| && r == l[..|r|] && AllSpace(l[|r|..])
    ensures PaddedAt(s, r, |s| - |l|)
  {
    var i := |s| - |l|;
    assert s[i..i + |r|] == r;
    assert s[i + |r|..] == l[|r|..];
  }


  predicate HasPrefix(s: string, p: string) {
    |p| <= |s| && s[..|p|] == p
  }

  /** strings.Replace(s, [c], "", -1): every occurrence of c deleted. */
  function RemoveAll(s: string, c: char): (r: string)
    ensures |r| <= |s|
    ensures forall i :: 0 <= i < |r| ==> r[i] != c
  {
    if s == [] then []
    else if s[0] == c then RemoveAll(s[1..], c)
    else [s[0]] + RemoveAll(s[1..], c)
  }

  /** What is left of the trimmed contents once the prefix, spaces and hyphens are gone. */
  function Payload(trimmed: string): (r: string)
    requires HasPrefix(trimmed, UUIDPrefix)
    ensures |r| <= |trimmed| - |UUIDPrefix|
    ensures forall i :: 0 <= i < |r| ==> r[i] != ' ' && r[i] != '-'
  {
    var spaceless := RemoveAll(trimmed[|UUIDPrefix|..], ' ');
    RemoveAllKeepsAbsent(spaceless, '-', ' ');
    RemoveAll(spaceless, '-')
  }

  /** Two groups joined by a hyphen. */
  function Dash(x: string, y: string): string {
    x + "-" + y
  }

  /** The 8-4-4-4-12 layout of a 32-character payload. */
  function Hyphenate(p: string): (r: string)
    requires |p| == PayloadLength
    ensures |r| == 36
  {
    Dash(p[0..8], Dash(p[8..12], Dash(p[12..16], Dash(p[16..20], p[20..32]))))
  }

  datatype Failure = MissingPrefix | WrongLength

  /** The checks and the formatting, applied to the already trimmed contents. */
  function NormalizeTrimmed(uuid: string): (r: Result<string, Failure>)
    ensures r.Ok? ==> |r.value| == 36
    ensures r.Ok? ==> forall i :: 0 <= i < 36 ==> (r.value[i] == '-' <==> i in HyphenPositions)
    ensures r.Ok? ==> forall i :: 0 <= i < 36 ==> r.value[i] != ' '
    ensures r == Err(MissingPrefix) <==> !HasPrefix(uuid, UUIDPrefix)
  {
    if !HasPrefix(uuid, UUIDPrefix) then Err(MissingPrefix)
    else
      var p := Payload(uuid);
      if |p| != PayloadLength then Err(WrongLength)
      else
        var r := Hyphenate(p);
        assert forall i :: 0 <= i < 36 ==> (r[i] == '-' <==> i in HyphenPositions) && r[i] != ' ' by {
          forall i | 0 <= i < 36 ensures (r[i] == '-' <==> i in HyphenPositions) && r[i] != ' ' {
            HyphenateAt(p, i);
            RemoveAllKeepsAbsent(RemoveAll(uuid[|UUIDPrefix|..], ' '), '-', ' ');
          }
        }
        Ok(r)
  }

  /** getvmUUID once the file has been read; errors quote the untrimmed contents. */
  function GetVmUuid(contents: string): (r: Result<string, UuidError>)
    ensures r.Ok? ==> |r.value| == 36
    ensures r.Ok? ==> forall i :: 0 <= i < 36 ==> (r.value[i] == '-' <==> i in HyphenPositions)
    ensures r.Ok? ==> forall i :: 0 <= i < 36 ==> r.value[i] != ' '
    ensures r.Err? && r.error.PrefixMismatch? <==> !HasPrefix(TrimSpace(contents), UUIDPrefix)
    ensures r.Err? ==> r.error.contents == contents
  {
    match NormalizeTrimmed(TrimSpace(contents))
    case Ok(uuid) => Ok(uuid)
    case Err(MissingPrefix) => Err(PrefixMismatch(contents))
    case Err(WrongLength) => Err(LengthMismatch(contents))
  }

  // ---------------------------------------------------------------------
  // Helper facts about the string operations

  /** Where each character of the payload lands in the hyphenated form. */
  lemma HyphenateAt(p: string, i: int)
    requires |p| == PayloadLength && 0 <= i < 36
    requires forall k :: 0 <= k < |p| ==> p[k] != '-'
    ensures Hyphenate(p)[i] == '-' <==> i in HyphenPositions
    ensures i !in HyphenPositions ==> Hyphenate(p)[i] in p
  {
    var r := Hyphenate(p);
    if i < 8 { assert r[i] == p[i]; }
    else if i == 8 { }
    else if i < 13 { assert r[i] == p[i - 1]; }
    else if i == 13 { }
    else if i < 18 { assert r[i] == p[i - 2]; }
    else if i == 18 { }
    else if i < 23 { assert r[i] == p[i - 3]; }
    else if i == 23 { }
    else { assert r[i] == p[i - 4]; }
  }

  lemma {:induction false} RemoveAllKeepsAbsent(s: string, c: char, d: char)
    requires forall i :: 0 <= i < |s| ==> s[i] != d
    ensures forall i :: 0 <= i < |RemoveAll(s, c)| ==> RemoveAll(s, c)[i] != d
  {
    if s != [] {
      RemoveAllKeepsAbsent(s[1..], c, d);
    }
  }

  lemma {:induction false} RemoveAllAbsent(s: string, c: char)
    requires forall i :: 0 <= i < |s| ==> s[i] != c
    ensures RemoveAll(s, c) == s
  {
    if s != [] {
      RemoveAllAbsent(s[1..], c);
    }
  }

  lemma {:induction false} RemoveAllAppend(s: string, t: string, c: char)
    ensures RemoveAll(s + t, c) == RemoveAll(s, c) + RemoveAll(t, c)
  {
    if s == [] {
      assert s + t == t;
    } else {
      assert (s + t)[1..] == s[1..] + t;
      RemoveAllAppend(s[1..], t, c);
    }
  }

  lemma {:induction false} TrimLeftSpaces(pre: string, s: string)
    requires AllSpace(pre)
    ensures TrimLeft(pre + s) == TrimLeft(s)
  {
    if pre != [] {
      assert (pre + s)[1..] == pre[1..] + s;
      TrimLeftSpaces(pre[1..], s);
    } else {
      assert pre + s == s;
    }
  }

  lemma {:induction false} TrimRightSpaces(s: string, post: string)
    requires AllSpace(post)
    ensures TrimRight(s + post) == TrimRight(s)
  {
    if post != [] {
      assert (s + post)[..|s + post| - 1] == s + post[..|post| - 1];
      TrimRightSpaces(s, post[..|post| - 1]);
    } else {
      assert s + post == s;
    }
  }

  lemma {:induction false} TrimLeftAppend(s: string, t: string)
    ensures TrimLeft(s) != [] ==> TrimLeft(s + t) == TrimLeft(s) + t
    ensures TrimLeft(s) == [] ==> TrimLeft(s + t) == TrimLeft(t)
  {
    if s == [] {
      assert s + t == t;
    } else if IsSpace(s[0]) {
      assert (s + t)[1..] == s[1..] + t;
      TrimLeftAppend(s[1..], t);
    }
  }

  // ---------------------------------------------------------------------
  // Properties of getvmUUID

  /** Padding with white space on both sides does not change the trimmed form. */
  lemma TrimSpacePadding(pre: string, contents: string, post: string)
    requires AllSpace(pre) && AllSpace(post)
    ensures TrimSpace(pre + contents + post) == TrimSpace(contents)
  {
    assert pre + contents + post == pre + (contents + post);
    TrimLeftSpaces(pre, contents + post);
    TrimLeftAppend(contents, post);
    if TrimLeft(contents) != [] {
      TrimRightSpaces(TrimLeft(contents), post);
    } else {
      TrimLeftSpaces(post, []);
      assert post + [] == post;
    }
  }

  /**
   * Surrounding white space is removed before any check: padding the file
   * contents with white space changes neither the verdict nor the UUID.
   */
  lemma PaddingIsIgnored(pre: string, contents: string, post: string)
    requires AllSpace(pre) && AllSpace(post)
    ensures GetVmUuid(pre + contents + post).Ok? == GetVmUuid(contents).Ok?
    ensures GetVmUuid(contents).Ok? ==> GetVmUuid(pre + contents + post).value == GetVmUuid(contents).value
    ensures GetVmUuid(contents).Err? ==>
      GetVmUuid(pre + contents + post).error.PrefixMismatch? == GetVmUuid(contents).error.PrefixMismatch?
  {
    TrimSpacePadding(pre, contents, post);
    SameTrimSameVerdict(pre + contents + post, contents);
  }

  /** Two contents that trim to the same text get the same verdict, the same UUID and the same kind of error. */
  lemma SameTrimSameVerdict(a: string, b: string)
    requires TrimSpace(a) == TrimSpace(b)
    ensures GetVmUuid(a).Ok? == GetVmUuid(b).Ok?
    ensures GetVmUuid(b).Ok? ==> GetVmUuid(a).value == GetVmUuid(b).value
    ensures GetVmUuid(b).Err? ==> GetVmUuid(a).error.PrefixMismatch? == GetVmUuid(b).error.PrefixMismatch?
  {
  }

  /** Success exactly when the prefix is present and 32 characters remain. */
  lemma AcceptedExactly(contents: string)
    ensures GetVmUuid(contents).Ok? <==>
      HasPrefix(TrimSpace(contents), UUIDPrefix) && |Payload(TrimSpace(contents))| == PayloadLength
    ensures GetVmUuid(contents).Err? && GetVmUuid(contents).error.LengthMismatch? <==>
      HasPrefix(TrimSpace(contents), UUIDPrefix) && |Payload(TrimSpace(contents))| != PayloadLength
  {
  }

  /** Deleting the hyphens of a successful result gives back exactly the stripped payload. */
  lemma RoundTrip(contents: string)
    requires GetVmUuid(contents).Ok?
    ensures HasPrefix(TrimSpace(contents), UUIDPrefix)
    ensures |Payload(TrimSpace(contents))| == PayloadLength
    ensures GetVmUuid(contents).value == Hyphenate(Payload(TrimSpace(contents)))
    ensures RemoveAll(GetVmUuid(contents).value, '-') == Payload(TrimSpace(contents))
  {
    UnhyphenateHyphenate(Payload(TrimSpace(contents)));
  }

  lemma RemoveHyphenOfDash(x: string, y: string)
    requires forall i :: 0 <= i < |x| ==> x[i] != '-'
    ensures RemoveAll(Dash(x, y), '-') == x + RemoveAll(y, '-')
  {
    RemoveAllAppend(x + "-", y, '-');
    RemoveAllAppend(x, "-", '-');
    RemoveAllAbsent(x, '-');
    assert RemoveAll("-", '-') == [];
  }

  lemma UnhyphenateHyphenate(p: string)
    requires |p| == PayloadLength
    requires forall i :: 0 <= i < |p| ==> p[i] != '-'
    ensures RemoveAll(Hyphenate(p), '-') == p
  {
    var a, b, c, d, e := p[0..8], p[8..12], p[12..16], p[16..20], p[20..32];
    RemoveAllAbsent(e, '-');
    RemoveHyphenOfDash(d, e);
    RemoveHyphenOfDash(c, Dash(d, e));
    RemoveHyphenOfDash(b, Dash(c, Dash(d, e)));
    RemoveHyphenOfDash(a, Dash(b, Dash(c, Dash(d, e))));
    assert a + (b + (c + (d + e))) == p;
  }

  /**
   * Normalising is a fixed point on its own output: stripping the separators
   * of a canonical UUID and re-hyphenating gives it back unchanged.
   */
  lemma ReformatIsIdentity(contents: string)
    requires GetVmUuid(contents).Ok?
    ensures |RemoveAll(RemoveAll(GetVmUuid(contents).value, ' '), '-')| == PayloadLength
    ensures Hyphenate(RemoveAll(RemoveAll(GetVmUuid(contents).value, ' '), '-')) == GetVmUuid(contents).value
  {
    RemoveAllAbsent(GetVmUuid(contents).value, ' ');
    RoundTrip(contents);
  }

  /** The length is the only check on the payload: non-hexadecimal characters are accepted. */
  lemma NonHexPayloadAccepted()
    ensures GetVmUuid(UUIDPrefix + seq(32, _ => 'z') + "\n").Ok?
  {
    var z := seq(32, _ => 'z');
    var t := UUIDPrefix + z;
    assert UUIDPrefix + z + "\n" == t + "\n";
    assert (t + "\n")[0] == 'V';
    assert TrimLeft(t + "\n") == t + "\n";
    TrimRightSpaces(t, "\n");
    assert t[|t| - 1] == 'z';
    assert TrimRight(t) == t;
    assert t[..|UUIDPrefix|] == UUIDPrefix;
    assert t[|UUIDPrefix|..] == z;
    RemoveAllAbsent(z, ' ');
    RemoveAllAbsent(z, '-');
  }
}
