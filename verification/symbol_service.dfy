/**
 * backend/services/SymbolService.js: the 20-character symbol identification code (SIDC)
 * of MIL-STD-2525D, cut into fixed slots, validated, built and patched. The identity values
 * are those of shared/Enums.js (FRIEND '0', HOSTILE '1', NEUTRAL '2', UNKNOWN '3').
 */
module SymbolCodes {
  import opened Wrappers

  const Friend: string := "0"
  const Hostile: string := "1"
  const Neutral: string := "2"
  const Unknown: string := "3"

  /** parseSIDC's result: the eight consecutive slots. */
  datatype ParsedSidc = ParsedSidc(
    version: char, identity: char, exercise: char, domain: string, entityType: string,
    specificType: string, modifier: string, status: string)

  /** The slots concatenated in order. */
  function Joined(p: ParsedSidc): string {
    [p.version, p.identity, p.exercise] + p.domain + p.entityType + p.specificType +
    p.modifier + p.status
  }

  /** parseSIDC: throws unless the code has exactly 20 characters. */
  function ParseSidc(sidc: string): (r: Result<ParsedSidc>)
    ensures r.Err? <==> |sidc| != 20
    ensures r.Err? ==> r.error == InvalidSidcLength(sidc)
    ensures r.Ok? ==>
      r.value.version == sidc[0] && r.value.identity == sidc[1] &&
      r.value.exercise == sidc[2] && |r.value.domain| == 2 && |r.value.entityType| == 5 &&
      |r.value.specificType| == 4 && |r.value.modifier| == 3 && |r.value.status| == 3
  {
    if |sidc| != 20 then Err(InvalidSidcLength(sidc))
    else Ok(ParsedSidc(sidc[0], sidc[1], sidc[2], sidc[3..5], sidc[5..10], sidc[10..14],
      sidc[14..17], sidc[17..20]))
  }

  /** The slots tile the code: joining them gives back the input. */
  lemma ParseJoinRoundTrip(sidc: string)
    requires |sidc| == 20
    ensures ParseSidc(sidc).Ok? && Joined(ParseSidc(sidc).value) == sidc
  {
    var p := ParseSidc(sidc).value;
    assert [p.version, p.identity, p.exercise] == sidc[..3];
    assert sidc == sidc[..3] + sidc[3..5] + sidc[5..10] + sidc[10..14] + sidc[14..17] +
      sidc[17..20];
  }

  /** getIdentityColor. */
  function IdentityColor(identity: string): (color: string)
    ensures identity == Friend ==> color == "#00FFFF"
    ensures identity == Hostile ==> color == "#FF0000"
    ensures identity == Neutral ==> color == "#00FF00"
    ensures identity == Unknown ==> color == "#FFFF00"
    ensures identity !in {Friend, Hostile, Neutral, Unknown} ==> color == "#FFFFFF"
  {
    if identity == Friend then "#00FFFF"
    else if identity == Hostile then "#FF0000"
    else if identity == Neutral then "#00FF00"
    else if identity == Unknown then "#FFFF00"
    else "#FFFFFF"
  }

  /** The four identities get four different colours, none of them the default white. */
  lemma IdentityColorsDistinct(a: string, b: string)
    requires a in {Friend, Hostile, Neutral, Unknown} && b in {Friend, Hostile, Neutral, Unknown}
    ensures IdentityColor(a) != "#FFFFFF"
    ensures a != b ==> IdentityColor(a) != IdentityColor(b)
  {
  }

  /** getSIDCColor: the colour of the identity slot (position 1). */
  function SidcColor(sidc: string): (r: Result<string>)
    ensures r.Err? <==> |sidc| != 20
    ensures r.Ok? ==> r.value == IdentityColor([sidc[1]])
  {
    var p :- ParseSidc(sidc);
    Ok(IdentityColor([p.identity]))
  }

  /** The characters of `^[0-9A-Z]*$`. */
  predicate IsCodeChar(c: char) {
    '0' <= c <= '9' || 'A' <= c <= 'Z'
  }

  /** validateSIDC, on string inputs; non-string values are not modelled. */
  function ValidateSidc(sidc: string): (ok: bool)
    ensures ok <==> |sidc| == 20 && forall i | 0 <= i < |sidc| :: IsCodeChar(sidc[i])
  {
    |sidc| == 20 && AllCodeChars(sidc)
  }

  function AllCodeChars(s: string): (ok: bool)
    ensures ok <==> forall i | 0 <= i < |s| :: IsCodeChar(s[i])
  {
    if s == [] then true else IsCodeChar(s[0]) && AllCodeChars(s[1..])
  }

  /** The options object of createDefaultSIDC; a missing key takes its default. */
  datatype DefaultOptions = DefaultOptions(
    identity: Option<string>, domain: Option<string>, entityType: Option<string>)

  /** createDefaultSIDC. Destructuring defaults apply only to absent keys. */
  function CreateDefaultSidc(options: DefaultOptions): (sidc: string)
    ensures |sidc| == 12 + |options.identity.GetOr(Friend)| + |options.domain.GetOr("10")| +
      |options.entityType.GetOr("00015")|
    ensures sidc[0] == '3'
  {
    "3" + options.identity.GetOr(Friend) + "0" + options.domain.GetOr("10") +
    options.entityType.GetOr("00015") + "0000000000"
  }

  /**
   * With one-, two- and five-character values (the defaults among them) the code has 20
   * characters, parses back to those values, and is valid exactly when they are.
   */
  lemma DefaultSidcParses(options: DefaultOptions)
    requires |options.identity.GetOr(Friend)| == 1 && |options.domain.GetOr("10")| == 2
    requires |options.entityType.GetOr("00015")| == 5
    ensures var sidc := CreateDefaultSidc(options);
      var id := options.identity.GetOr(Friend);
      var dom := options.domain.GetOr("10");
      var ent := options.entityType.GetOr("00015");
      |sidc| == 20 && ParseSidc(sidc).Ok? &&
      [ParseSidc(sidc).value.identity] == id &&
      ParseSidc(sidc).value.domain == dom &&
      ParseSidc(sidc).value.entityType == ent &&
      ParseSidc(sidc).value.version == '3' &&
      (ValidateSidc(sidc) <==> forall i | 0 <= i < |id + dom + ent| ::
        IsCodeChar((id + dom + ent)[i]))
  {
    var id := options.identity.GetOr(Friend);
    var dom := options.domain.GetOr("10");
    var ent := options.entityType.GetOr("00015");
    CodeCharsOfDefault(id, dom, ent, CreateDefaultSidc(options));
  }

  /** The default code with no options is valid. */
  lemma DefaultSidcValid()
    ensures ValidateSidc(CreateDefaultSidc(DefaultOptions(None, None, None)))
  {
    DefaultSidcParses(DefaultOptions(None, None, None));
    var s := Friend + "10" + "00015";
    assert forall i | 0 <= i < |s| :: IsCodeChar(s[i]);
  }

  /** The fixed characters of a default code are digits, so validity rests on the inputs. */
  lemma CodeCharsOfDefault(id: string, dom: string, ent: string, r: string)
    requires |id| == 1 && |dom| == 2 && |ent| == 5
    requires r == "3" + id + "0" + dom + ent + "0000000000"
    ensures r[1..2] == id && r[3..5] == dom && r[5..10] == ent && r[0] == '3'
    ensures (forall i | 0 <= i < |r| :: IsCodeChar(r[i])) <==>
      (forall i | 0 <= i < |id + dom + ent| :: IsCodeChar((id + dom + ent)[i]))
  {
    var s := id + dom + ent;
    assert forall i | 0 <= i < |s| :: s[i] == r[if i == 0 then 1 else i + 2];
    forall i | 0 <= i < |r| && (forall k | 0 <= k < |s| :: IsCodeChar(s[k]))
      ensures IsCodeChar(r[i])
    {
      if i == 0 || i == 2 || i >= 10 {
      } else if i == 1 {
        assert r[i] == s[0];
      } else {
        assert r[i] == s[i - 2];
      }
    }
  }

  /** JavaScript's `s.slice(a)` and `s.slice(0, b)` for non-negative bounds. */
  function SliceFrom(s: string, a: nat): (r: string)
    ensures a <= |s| ==> r == s[a..]
    ensures a > |s| ==> r == ""
  {
    if a <= |s| then s[a..] else ""
  }

  function SliceTo(s: string, b: nat): (r: string)
    ensures b <= |s| ==> r == s[..b]
    ensures b > |s| ==> r == s
  {
    if b <= |s| then s[..b] else s
  }

  /** The modifications object of modifySIDC. */
  datatype Modifications = Modifications(
    identity: Option<string>, domain: Option<string>, entityType: Option<string>)

  /** modifySIDC as written: the identity overwrites position 0. */
  function ModifySidc(sidc: string, mods: Modifications): (r: Result<string>)
    ensures r.Err? <==> |sidc| != 20
    ensures r.Err? ==> r.error == InvalidSidcLength(sidc)
  {
    var _ :- ParseSidc(sidc);
    var a := if mods.identity.Some? then mods.identity.value + SliceFrom(sidc, 1) else sidc;
    var b := if mods.domain.Some? then SliceTo(a, 3) + mods.domain.value + SliceFrom(a, 5) else a;
    var c := if mods.entityType.Some? then SliceTo(b, 5) + mods.entityType.value + SliceFrom(b, 10)
             else b;
    Ok(c)
  }

  /** A two-character domain replaces only positions 3-4. */
  lemma ModifyDomainOnly(sidc: string, domain: string)
    requires |sidc| == 20 && |domain| == 2
    ensures var r := ModifySidc(sidc, Modifications(None, Some(domain), None));
      r.Ok? && |r.value| == 20 && r.value[3..5] == domain &&
      (forall i | 0 <= i < 20 && (i < 3 || i >= 5) :: r.value[i] == sidc[i])
  {
    var r := ModifySidc(sidc, Modifications(None, Some(domain), None)).value;
    assert r == sidc[..3] + domain + sidc[5..];
  }

  /** A five-character entity type replaces only positions 5-9. */
  lemma ModifyEntityTypeOnly(sidc: string, entityType: string)
    requires |sidc| == 20 && |entityType| == 5
    ensures var r := ModifySidc(sidc, Modifications(None, None, Some(entityType)));
      r.Ok? && |r.value| == 20 && r.value[5..10] == entityType &&
      (forall i | 0 <= i < 20 && (i < 5 || i >= 10) :: r.value[i] == sidc[i])
  {
    var r := ModifySidc(sidc, Modifications(None, None, Some(entityType))).value;
    assert r == sidc[..5] + entityType + sidc[10..];
  }

  /** As written, a new identity lands in the version slot and the identity slot keeps its value. */
  lemma ModifyIdentityHitsVersion(sidc: string, c: char)
    requires |sidc| == 20
    ensures var r := ModifySidc(sidc, Modifications(Some([c]), None, None));
      r.Ok? && ParseSidc(r.value).Ok? &&
      ParseSidc(r.value).value.version == c &&
      ParseSidc(r.value).value.identity == sidc[1]
  {
    var r := ModifySidc(sidc, Modifications(Some([c]), None, None)).value;
    assert r == [c] + sidc[1..];
    assert r[1] == sidc[1];
  }

  /** The counterexample: the friendly default code patched to hostile still parses as friendly. */
  lemma ModifyIdentityCounterexample()
    ensures var s := CreateDefaultSidc(DefaultOptions(None, None, None));
      var r := ModifySidc(s, Modifications(Some(Hostile), None, None));
      r.Ok? && ParseSidc(r.value).Ok? && [ParseSidc(r.value).value.identity] != Hostile
  {
    var s := CreateDefaultSidc(DefaultOptions(None, None, None));
    ModifyIdentityHitsVersion(s, '1');
    assert s[1] == '0';
  }

  /** modifySIDC with the identity written to position 1, the slot parseSIDC reads it from. */
  function ModifySidcCorrected(sidc: string, mods: Modifications): (r: Result<string>)
    ensures r.Err? <==> |sidc| != 20
    ensures r.Err? ==> r.error == InvalidSidcLength(sidc)
  {
    var _ :- ParseSidc(sidc);
    var a := if mods.identity.Some? then SliceTo(sidc, 1) + mods.identity.value + SliceFrom(sidc, 2)
             else sidc;
    var b := if mods.domain.Some? then SliceTo(a, 3) + mods.domain.value + SliceFrom(a, 5) else a;
    var c := if mods.entityType.Some? then SliceTo(b, 5) + mods.entityType.value + SliceFrom(b, 10)
             else b;
    Ok(c)
  }

  /** With one-, two- and five-character values, every supplied slot reads back as given. */
  lemma ModifyCorrectedReadsBack(sidc: string, mods: Modifications)
    requires |sidc| == 20
    requires mods.identity.Some? ==> |mods.identity.value| == 1
    requires mods.domain.Some? ==> |mods.domain.value| == 2
    requires mods.entityType.Some? ==> |mods.entityType.value| == 5
    ensures var r := ModifySidcCorrected(sidc, mods);
      r.Ok? && |r.value| == 20 && ParseSidc(r.value).Ok? &&
      var p := ParseSidc(r.value).value;
      var old_ := ParseSidc(sidc).value;
      [p.identity] == mods.identity.GetOr([sidc[1]]) &&
      p.domain == mods.domain.GetOr(sidc[3..5]) &&
      p.entityType == mods.entityType.GetOr(sidc[5..10]) &&
      p.version == old_.version && p.exercise == old_.exercise &&
      p.specificType == old_.specificType && p.modifier == old_.modifier &&
      p.status == old_.status
  {
    var a := if mods.identity.Some? then sidc[..1] + mods.identity.value + sidc[2..] else sidc;
    if mods.identity.Some? {
      Splice(sidc, 1, 2, mods.identity.value);
      assert mods.identity.value == [a[1]] by { assert a[1..2] == [a[1]]; }
    }
    var b := if mods.domain.Some? then a[..3] + mods.domain.value + a[5..] else a;
    if mods.domain.Some? {
      Splice(a, 3, 5, mods.domain.value);
    }
    var c := if mods.entityType.Some? then b[..5] + mods.entityType.value + b[10..] else b;
    if mods.entityType.Some? {
      Splice(b, 5, 10, mods.entityType.value);
    }
    assert ModifySidcCorrected(sidc, mods) == Ok(c);
    assert c[3..5] == b[3..5] by {
      if mods.entityType.Some? {
        assert forall k | 3 <= k < 5 :: c[k] == b[k];
      }
    }
    assert c[10..14] == sidc[10..14] && c[14..17] == sidc[14..17] && c[17..20] == sidc[17..20] by {
      assert forall k | 10 <= k < 20 :: c[k] == sidc[k];
    }
  }

  /** Writing `v` over positions i..j keeps the length and every position outside i..j. */
  lemma Splice(s: string, i: nat, j: nat, v: string)
    requires i <= j <= |s| && |v| == j - i
    ensures |s[..i] + v + s[j..]| == |s|
    ensures (s[..i] + v + s[j..])[i..j] == v
    ensures forall k | 0 <= k < |s| && !(i <= k < j) :: (s[..i] + v + s[j..])[k] == s[k]
  {
    var r := s[..i] + v + s[j..];
    assert r[i..j] == v by {
      forall k | 0 <= k < j - i ensures r[i..j][k] == v[k] {
        assert r[i + k] == v[k];
      }
    }
  }

  /** getSIDCInfo; `identityLabel` is absent for codes other than the four identities. */
  datatype SidcInfo = SidcInfo(sidc: string, color: string, parsed: ParsedSidc,
    identityLabel: Option<string>, domainLabel: string)

  function IdentityLabel(identity: string): (text: Option<string>)
    ensures text.Some? <==> identity in {Friend, Hostile, Neutral, Unknown}
  {
    if identity == Friend then Some("友軍")
    else if identity == Hostile then Some("敵軍")
    else if identity == Neutral then Some("中立")
    else if identity == Unknown then Some("未知")
    else None
  }

  function DomainLabel(domain: string): (text: string)
    ensures domain !in {"10", "30", "50"} ==> text == "其他"
    ensures domain in {"10", "30", "50"} ==> text != "其他"
  {
    if domain == "10" then "陸戰"
    else if domain == "30" then "空戰"
    else if domain == "50" then "海戰"
    else "其他"
  }

  function GetSidcInfo(sidc: string): (r: Result<SidcInfo>)
    ensures r.Err? <==> |sidc| != 20
    ensures r.Ok? ==>
      r.value.parsed == ParseSidc(sidc).value && r.value.sidc == sidc &&
      r.value.color == IdentityColor([sidc[1]]) &&
      r.value.identityLabel == IdentityLabel([sidc[1]]) &&
      r.value.domainLabel == DomainLabel(sidc[3..5])
  {
    var p :- ParseSidc(sidc);
    // getSIDCColor parses the same code again, so it cannot fail here
    Ok(SidcInfo(sidc, IdentityColor([p.identity]), p, IdentityLabel([p.identity]),
      DomainLabel(p.domain)))
  }
}
