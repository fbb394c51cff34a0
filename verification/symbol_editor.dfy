/**
 * frontend/engine/SymbolEditor.js: the letter-format symbol code editor. The current
 * symbol is a set of string properties; the code is assembled from lookup tables and
 * a 15-character code can be parsed back into the properties.
 */
module SymbolEditing {
  import opened Wrappers

  /** One row of an option table: the property value and its code letters. */
  datatype Choice = Choice(value: string, code: string)

  const IdentityOptions: seq<Choice> := [
    Choice("0", "F"), Choice("1", "H"), Choice("2", "N"), Choice("3", "U")]

  const LevelOptions: seq<Choice> := [
    Choice("theater", "K"), Choice("army_group", "J"), Choice("army", "I"),
    Choice("corps", "H"), Choice("division", "G"), Choice("brigade", "F"),
    Choice("regiment", "E"), Choice("battalion", "D"), Choice("company", "C"),
    Choice("platoon", "B"), Choice("squad", "A"), Choice("team", "-")]

  const DimensionOptions: seq<Choice> := [
    Choice("ground", "G"), Choice("air", "A"), Choice("sea", "S"), Choice("subsurface", "U")]

  const BranchTypeOptions: seq<Choice> := [
    Choice("UCI----", "UCI----"), Choice("UCIM---", "UCIM---"), Choice("UCZ----", "UCZ----"),
    Choice("UCA----", "UCA----"), Choice("UCR----", "UCR----"), Choice("UCF----", "UCF----"),
    Choice("UCFM---", "UCFM---"), Choice("UCFZ---", "UCFZ---"), Choice("UCK----", "UCK----"),
    Choice("UCE----", "UCE----"), Choice("UCV----", "UCV----"), Choice("UU-----", "UU-----")]

  /** Every code of the table has `n` characters. */
  predicate CodesOfLength(table: seq<Choice>, n: nat) {
    forall j | 0 <= j < |table| :: |table[j].code| == n
  }

  predicate DistinctValues(table: seq<Choice>) {
    forall j, k | 0 <= j < k < |table| :: table[j].value != table[k].value
  }

  predicate DistinctCodes(table: seq<Choice>) {
    forall j, k | 0 <= j < k < |table| :: table[j].code != table[k].code
  }

  lemma IdentityTable()
    ensures CodesOfLength(IdentityOptions, 1)
    ensures DistinctValues(IdentityOptions) && DistinctCodes(IdentityOptions)
  {
  }

  lemma DimensionTable()
    ensures CodesOfLength(DimensionOptions, 1)
    ensures DistinctCodes(DimensionOptions)
  {
  }

  lemma LevelTable()
    ensures CodesOfLength(LevelOptions, 1)
    ensures DistinctValues(LevelOptions) && DistinctCodes(LevelOptions)
  {
    LevelValuesDistinct();
    LevelCodesDistinct();
  }

  lemma LevelValuesDistinct()
    ensures DistinctValues(LevelOptions)
  {
    // length and first letter already tell the twelve level names apart
    assert forall j, k | 0 <= j < k < |LevelOptions| ::
      |LevelOptions[j].value| != |LevelOptions[k].value| ||
      LevelOptions[j].value[0] != LevelOptions[k].value[0];
  }

  lemma LevelCodesDistinct()
    ensures DistinctCodes(LevelOptions)
  {
  }

  lemma BranchTable()
    ensures CodesOfLength(BranchTypeOptions, 7)
    ensures forall j | 0 <= j < |BranchTypeOptions| :: |BranchTypeOptions[j].value| == 7
  {
  }

  /** `table.find(opt => opt.value === v)`, as the index of the first match. */
  function FirstByValue(table: seq<Choice>, v: string): (r: Option<nat>)
    ensures r.Some? ==>
      r.value < |table| && table[r.value].value == v &&
      forall j | 0 <= j < r.value :: table[j].value != v
    ensures r.None? ==> forall j | 0 <= j < |table| :: table[j].value != v
  {
    if table == [] then None
    else if table[0].value == v then Some(0)
    else match FirstByValue(table[1..], v)
      case Some(i) => Some(i + 1)
      case None => None
  }

  /** `table.find(opt => opt.sidc === c)`, as the index of the first match. */
  function FirstByCode(table: seq<Choice>, c: string): (r: Option<nat>)
    ensures r.Some? ==>
      r.value < |table| && table[r.value].code == c &&
      forall j | 0 <= j < r.value :: table[j].code != c
    ensures r.None? ==> forall j | 0 <= j < |table| :: table[j].code != c
  {
    if table == [] then None
    else if table[0].code == c then Some(0)
    else match FirstByCode(table[1..], c)
      case Some(i) => Some(i + 1)
      case None => None
  }

  /** `(table.find(by value) || table[fallback]).sidc`. */
  function CodeOf(table: seq<Choice>, v: string, fallback: nat): (code: string)
    requires fallback < |table|
    ensures (exists j | 0 <= j < |table| :: table[j].value == v) ==>
      exists j | 0 <= j < |table| :: table[j].value == v && code == table[j].code
    ensures (forall j | 0 <= j < |table| :: table[j].value != v) ==> code == table[fallback].code
  {
    match FirstByValue(table, v)
    case Some(i) => table[i].code
    case None => table[fallback].code
  }

  /** `found ? found.value : fallback` for a lookup by code. */
  function ValueOf(table: seq<Choice>, c: string, fallback: string): (v: string)
    ensures (forall j | 0 <= j < |table| :: table[j].code != c) ==> v == fallback
    ensures (exists j | 0 <= j < |table| :: table[j].code == c) ==>
      exists j | 0 <= j < |table| :: table[j].code == c && v == table[j].value
  {
    match FirstByCode(table, c)
    case Some(i) => table[i].value
    case None => fallback
  }

  lemma CodeOfLength(table: seq<Choice>, v: string, fallback: nat, n: nat)
    requires fallback < |table| && CodesOfLength(table, n)
    ensures |CodeOf(table, v, fallback)| == n
  {
  }

  /** With distinct values, the lookup of row `i`'s value finds row `i`. */
  lemma FirstByDistinctValue(table: seq<Choice>, i: nat)
    requires i < |table| && DistinctValues(table)
    ensures FirstByValue(table, table[i].value) == Some(i)
  {
  }

  /** With distinct codes, the lookup of row `i`'s code finds row `i`. */
  lemma FirstByDistinctCode(table: seq<Choice>, i: nat)
    requires i < |table| && DistinctCodes(table)
    ensures FirstByCode(table, table[i].code) == Some(i)
  {
  }

  /** In a table whose codes are distinct, the lookup by a row's code yields that row's value. */
  lemma ValueOfDistinct(table: seq<Choice>, c: string, fallback: string)
    requires DistinctCodes(table)
    ensures forall j | 0 <= j < |table| && table[j].code == c ::
      ValueOf(table, c, fallback) == table[j].value
  {
    if i :| 0 <= i < |table| && table[i].code == c {
      var k := FirstByCode(table, c).value;
      assert forall j | 0 <= j < |table| && table[j].code == c :: j == k;
    }
  }

  /** In a table whose values are distinct, the lookup by a row's value yields that row's code. */
  lemma CodeOfDistinct(table: seq<Choice>, v: string, fallback: nat)
    requires fallback < |table| && DistinctValues(table)
    ensures forall j | 0 <= j < |table| && table[j].value == v ::
      CodeOf(table, v, fallback) == table[j].code
  {
    if i :| 0 <= i < |table| && table[i].value == v {
      var k := FirstByValue(table, v).value;
      assert forall j | 0 <= j < |table| && table[j].value == v :: j == k;
    }
  }

  /** _parseAffiliation: the identity whose letter is `c`, or "0" (friend) for any other letter. */
  function ParseAffiliation(c: char): (v: string)
    ensures forall j | 0 <= j < |IdentityOptions| && IdentityOptions[j].code == [c] ::
      v == IdentityOptions[j].value
    ensures (forall j | 0 <= j < |IdentityOptions| :: IdentityOptions[j].code != [c]) ==> v == "0"
  {
    IdentityTable();
    ValueOfDistinct(IdentityOptions, [c], "0");
    ValueOf(IdentityOptions, [c], "0")
  }

  /** _parseDimension: the dimension whose letter is `c`, or "ground" for any other letter. */
  function ParseDimension(c: char): (v: string)
    ensures forall j | 0 <= j < |DimensionOptions| && DimensionOptions[j].code == [c] ::
      v == DimensionOptions[j].value
    ensures (forall j | 0 <= j < |DimensionOptions| :: DimensionOptions[j].code != [c]) ==>
      v == "ground"
  {
    DimensionTable();
    ValueOfDistinct(DimensionOptions, [c], "ground");
    ValueOf(DimensionOptions, [c], "ground")
  }

  /** _parseEchelon: the level whose letter is `c`, or "battalion" for any other code. */
  function ParseEchelon(c: string): (v: string)
    ensures forall j | 0 <= j < |LevelOptions| && LevelOptions[j].code == c ::
      v == LevelOptions[j].value
    ensures (forall j | 0 <= j < |LevelOptions| :: LevelOptions[j].code != c) ==> v == "battalion"
  {
    LevelTable();
    ValueOfDistinct(LevelOptions, c, "battalion");
    ValueOf(LevelOptions, c, "battalion")
  }

  /** The echelon letter of a level: one letter, LevelOptions[7] ('D', battalion) when unknown. */
  function LevelCode(level: string): (code: string)
    ensures |code| == 1
    ensures forall j | 0 <= j < |LevelOptions| && LevelOptions[j].value == level ::
      code == LevelOptions[j].code
    ensures (forall j | 0 <= j < |LevelOptions| :: LevelOptions[j].value != level) ==> code == "D"
  {
    LevelTable();
    CodeOfDistinct(LevelOptions, level, 7);
    CodeOf(LevelOptions, level, 7)
  }

  /** The editor's current symbol; properties other than the six named ones go in `extra`. */
  datatype Symbol = Symbol(affiliation: string, dimension: string, status: string,
    branchType: string, level: string, echelon: string, extra: map<string, string>)

  const DefaultSymbol := Symbol("0", "ground", "P", "UCI----", "battalion", "D", map[])

  /** generateSIDC: 'S', identity, dimension, status, branch code, "--", echelon. */
  function Generate(s: Symbol): (sidc: string)
    ensures |sidc| == 12 + |s.status| + |s.echelon|
  {
    IdentityTable();
    DimensionTable();
    BranchTable();
    CodeOfLength(IdentityOptions, s.affiliation, 0, 1);
    CodeOfLength(DimensionOptions, s.dimension, 0, 1);
    CodeOfLength(BranchTypeOptions, s.branchType, 0, 7);
    "S" + CodeOf(IdentityOptions, s.affiliation, 0) + CodeOf(DimensionOptions, s.dimension, 0) +
    s.status + CodeOf(BranchTypeOptions, s.branchType, 0) + "--" + s.echelon
  }

  /** Where each property's letters sit in the generated code. */
  lemma GeneratedLayout(s: Symbol)
    ensures var sidc := Generate(s); var n := |s.status|;
      sidc[0] == 'S' &&
      sidc[1..2] == CodeOf(IdentityOptions, s.affiliation, 0) &&
      sidc[2..3] == CodeOf(DimensionOptions, s.dimension, 0) &&
      sidc[3..3 + n] == s.status &&
      sidc[3 + n..10 + n] == CodeOf(BranchTypeOptions, s.branchType, 0) &&
      sidc[10 + n..12 + n] == "--" &&
      sidc[12 + n..] == s.echelon
  {
    var id := CodeOf(IdentityOptions, s.affiliation, 0);
    var dim := CodeOf(DimensionOptions, s.dimension, 0);
    var br := CodeOf(BranchTypeOptions, s.branchType, 0);
    IdentityTable();
    DimensionTable();
    BranchTable();
    CodeOfLength(IdentityOptions, s.affiliation, 0, 1);
    CodeOfLength(DimensionOptions, s.dimension, 0, 1);
    CodeOfLength(BranchTypeOptions, s.branchType, 0, 7);
    assert Generate(s) == "S" + id + dim + s.status + br + "--" + s.echelon;
    Layout(id, dim, s.status, br, s.echelon);
  }

  /** The positions of the six parts of a generated code, for parts of fixed width. */
  lemma Layout(id: string, dim: string, status: string, br: string, echelon: string)
    requires |id| == 1 && |dim| == 1 && |br| == 7
    ensures var sidc := "S" + id + dim + status + br + "--" + echelon; var n := |status|;
      sidc[0] == 'S' && sidc[1..2] == id && sidc[2..3] == dim && sidc[3..3 + n] == status &&
      sidc[3 + n..10 + n] == br && sidc[10 + n..12 + n] == "--" && sidc[12 + n..] == echelon
  {
    var n := |status|;
    var head := "S" + id + dim;
    var mid := head + status;
    var tail := mid + br + "--";
    assert |head| == 3 && |mid| == 3 + n && |tail| == 12 + n;
    assert (tail + echelon)[..12 + n] == tail;
    assert tail[..3 + n] == mid && tail[3 + n..10 + n] == br && tail[10 + n..] == "--";
    assert mid[..3] == head && mid[3..] == status;
    assert head[1..2] == id && head[2..3] == dim;
  }

  /** `currentSymbol[key]`: a named property, or one set earlier through updateProperty. */
  function Property(s: Symbol, key: string): Option<string> {
    if key == "affiliation" then Some(s.affiliation)
    else if key == "dimension" then Some(s.dimension)
    else if key == "status" then Some(s.status)
    else if key == "branchType" then Some(s.branchType)
    else if key == "level" then Some(s.level)
    else if key == "echelon" then Some(s.echelon)
    else if key in s.extra then Some(s.extra[key])
    else None
  }

  /**
   * updateProperty on the symbol: the key reads back as the value and every other key is
   * kept, except that 'level' also sets the echelon letter.
   */
  function WithProperty(s: Symbol, key: string, value: string): (r: Symbol)
    ensures Property(r, key) == Some(value)
    ensures key == "level" ==> Property(r, "echelon") == Some(LevelCode(value))
    ensures forall k | k != key && (key != "level" || k != "echelon") ::
      Property(r, k) == Property(s, k)
  {
    if key == "level" then s.(level := value, echelon := LevelCode(value))
    else if key == "affiliation" then s.(affiliation := value)
    else if key == "dimension" then s.(dimension := value)
    else if key == "status" then s.(status := value)
    else if key == "branchType" then s.(branchType := value)
    else if key == "echelon" then s.(echelon := value)
    else s.(extra := s.extra[key := value])
  }

  /** setSIDC's assignments for a 15-character code. */
  function ParsedInto(s: Symbol, sidc: string): (r: Symbol)
    requires |sidc| == 15
    ensures r.status == [sidc[3]] && r.branchType == sidc[4..10] && r.echelon == [sidc[13]]
    ensures r.level == ParseEchelon([sidc[13]]) && r.extra == s.extra
    ensures r.affiliation == ParseAffiliation(sidc[1]) && r.dimension == ParseDimension(sidc[2])
  {
    // `sidc[13] || '-'`: a one-character string is truthy, so the fallback never applies
    var echelon := [sidc[13]];
    Symbol(ParseAffiliation(sidc[1]), ParseDimension(sidc[2]), [sidc[3]], sidc[4..10],
      ParseEchelon(echelon), echelon, s.extra)
  }

  /** The echelon letters are distinct, so parsing a level's letter gives the level back. */
  lemma EchelonRoundTrip(i: nat)
    requires i < |LevelOptions|
    ensures ParseEchelon(LevelCode(LevelOptions[i].value)) == LevelOptions[i].value
  {
    LevelTable();
    FirstByDistinctValue(LevelOptions, i);
    FirstByDistinctCode(LevelOptions, i);
  }

  /** An unknown level gets letter 'D', and an unknown letter reads as battalion. */
  lemma UnknownLevelFallbacks(level: string, c: string)
    requires forall j | 0 <= j < |LevelOptions| :: LevelOptions[j].value != level
    requires forall j | 0 <= j < |LevelOptions| :: LevelOptions[j].code != c
    ensures LevelCode(level) == "D" && ParseEchelon(c) == "battalion"
  {
  }

  /** With one-letter status and echelon the editor's own code has 14 characters. */
  lemma GeneratedIsFourteen(s: Symbol)
    requires |s.status| == 1 && |s.echelon| == 1
    ensures |Generate(s)| == 14
  {
  }

  /**
   * setSIDC stores a six-character branch type, which matches no seven-character table
   * value, so the next generated code always carries the first branch, infantry.
   */
  lemma ParsedBranchFallsBack(s: Symbol, sidc: string)
    requires |sidc| == 15
    ensures var g := Generate(ParsedInto(s, sidc)); g[4..11] == "UCI----"
  {
    GeneratedLayout(ParsedInto(s, sidc));
    var r := ParsedInto(s, sidc);
    BranchTable();
    assert forall j | 0 <= j < |BranchTypeOptions| :: BranchTypeOptions[j].value != r.branchType;
    assert CodeOf(BranchTypeOptions, r.branchType, 0) == BranchTypeOptions[0].code;
  }

  lemma GeneratedAffiliation(s: Symbol)
    ensures Generate(s)[1] == CodeOf(IdentityOptions, s.affiliation, 0)[0]
  {
    GeneratedLayout(s);
    assert Generate(s)[1..2][0] == Generate(s)[1];
  }

  /** An affiliation letter of the table is parsed to the value whose letter it is. */
  lemma AffiliationLetterRoundTrip(c: char)
    requires c in "FHNU"
    ensures CodeOf(IdentityOptions, ParseAffiliation(c), 0) == [c]
  {
    var i: nat := if c == 'F' then 0 else if c == 'H' then 1 else if c == 'N' then 2 else 3;
    assert IdentityOptions[i].code == [c];
    IdentityTable();
    FirstByDistinctCode(IdentityOptions, i);
    FirstByDistinctValue(IdentityOptions, i);
  }

  /** Any other letter reads as FRIEND, whose letter is 'F'. */
  lemma UnknownAffiliationLetter(c: char)
    requires c !in "FHNU"
    ensures ParseAffiliation(c) == "0"
    ensures CodeOf(IdentityOptions, ParseAffiliation(c), 0) == "F"
  {
    assert [c] != "F" && [c] != "H" && [c] != "N" && [c] != "U";
    assert FirstByCode(IdentityOptions, [c]) == None;
    assert FirstByValue(IdentityOptions, "0") == Some(0);
  }

  /** An affiliation letter of the table survives setSIDC followed by generateSIDC. */
  lemma AffiliationRoundTrip(s: Symbol, sidc: string)
    requires |sidc| == 15 && sidc[1] in "FHNU"
    ensures Generate(ParsedInto(s, sidc))[1] == sidc[1]
  {
    var p := ParsedInto(s, sidc);
    GeneratedAffiliation(p);
    AffiliationLetterRoundTrip(sidc[1]);
  }

  /** setSIDC with a letter outside the table, then generateSIDC, gives 'F'. */
  lemma UnknownAffiliationIsFriend(s: Symbol, sidc: string)
    requires |sidc| == 15 && sidc[1] !in "FHNU"
    ensures ParsedInto(s, sidc).affiliation == "0"
    ensures Generate(ParsedInto(s, sidc))[1] == 'F'
  {
    var p := ParsedInto(s, sidc);
    GeneratedAffiliation(p);
    UnknownAffiliationLetter(sidc[1]);
  }

  /** getCurrentSettings: the properties plus the generated code. */
  datatype Settings = Settings(symbol: Symbol, sidc: string)

  /** The event the editor emits on symbol-editor:changed. */
  datatype Changed = Changed(property: string, value: string, sidc: string)

  class SymbolEditor {
    var affiliation: string
    var dimension: string
    var status: string
    var branchType: string
    var level: string
    var echelon: string
    var extra: map<string, string>
    var emitted: seq<Changed>

    function Current(): Symbol
      reads this
    {
      Symbol(affiliation, dimension, status, branchType, level, echelon, extra)
    }

    constructor ()
      ensures Current() == DefaultSymbol && emitted == []
    {
      affiliation, dimension, status := "0", "ground", "P";
      branchType, level, echelon := "UCI----", "battalion", "D";
      extra := map[];
      emitted := [];
    }

    method UpdateProperty(key: string, value: string) returns (sidc: string)
      modifies this
      ensures Current() == WithProperty(old(Current()), key, value)
      ensures sidc == Generate(Current())
      ensures emitted == old(emitted) + [Changed(key, value, sidc)]
    {
      if key == "level" {
        level := value;
        var found := FirstByValue(LevelOptions, value);
        echelon := if found.Some? then LevelOptions[found.value].code else LevelOptions[7].code;
      } else if key == "affiliation" {
        affiliation := value;
      } else if key == "dimension" {
        dimension := value;
      } else if key == "status" {
        status := value;
      } else if key == "branchType" {
        branchType := value;
      } else if key == "echelon" {
        echelon := value;
      } else {
        extra := extra[key := value];
      }
      sidc := GetCurrentSidc();
      emitted := emitted + [Changed(key, value, sidc)];
    }

    method GetCurrentSidc() returns (sidc: string)
      ensures sidc == Generate(Current())
    {
      sidc := Generate(Current());
    }

    /** setSIDC: anything but 15 characters is ignored; returns the symbol when applied. */
    method SetSidc(sidc: string) returns (r: Option<Symbol>)
      modifies this
      ensures |sidc| != 15 ==> r == None && Current() == old(Current())
      ensures |sidc| == 15 ==> Current() == ParsedInto(old(Current()), sidc) && r == Some(Current())
      ensures emitted == old(emitted)
    {
      if |sidc| != 15 {
        return None;
      }
      affiliation := ParseAffiliation(sidc[1]);
      dimension := ParseDimension(sidc[2]);
      status := [sidc[3]];
      branchType := sidc[4..10];
      echelon := [sidc[13]];
      level := ParseEchelon(echelon);
      r := Some(Current());
    }

    method GetCurrentSettings() returns (s: Settings)
      ensures s.symbol == Current() && s.sidc == Generate(Current())
    {
      s := Settings(Current(), Generate(Current()));
    }
  }

  /** setSIDC refuses what generateSIDC produces from the editor's defaults. */
  lemma DefaultCodeRejected()
    ensures |Generate(DefaultSymbol)| == 14 && |Generate(DefaultSymbol)| != 15
  {
  }
}
