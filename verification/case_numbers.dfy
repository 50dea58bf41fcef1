/** Case-number minting: `PREFIX/YEAR/NNNNNN`, with the prefix looked up
    from the case category and NNNNNN drawn at random from [100000, 999999].
    The random draw and the clock are inputs: `r` stands for
    `Math.floor(Math.random() * 900000)` and `year` for `getFullYear()`. */
module CaseNumbers {
  import opened Text
  import opened Optional

  /** `prefixes[category]` for the own keys of the prefix table. */
  function TableLookup(category: string): (p: Option<string>)
    ensures p.Some? ==> |p.value| == 3 && '/' !in p.value && p.value != "CAS"
  {
    if category == "CMI" then Some("CTV")
    else if category == "Criminal" then Some("CRV")
    else if category == "Family" then Some("FAW")
    else if category == "Commercial" then Some("TCM")
    else if category == "Civil" then Some("CIV")
    else None
  }

  /** The properties every plain JavaScript object inherits from
      `Object.prototype`; a lookup `prefixes[category]` finds them too. */
  predicate IsInheritedKey(category: string)
  {
    category == "constructor" || category == "toString" || category == "toLocaleString"
    || category == "valueOf" || category == "hasOwnProperty" || category == "isPrototypeOf"
    || category == "propertyIsEnumerable" || category == "__proto__"
    || category == "__defineGetter__" || category == "__defineSetter__"
    || category == "__lookupGetter__" || category == "__lookupSetter__"
  }

  /** `prefixes[category] || 'CAS'` as written: an inherited key yields a
      truthy non-string value, which the template literal renders with
      `String(...)` (the rendering below is the V8 one). */
  function PrefixAsWritten(category: string): (p: string)
    ensures TableLookup(category).Some? ==> p == TableLookup(category).value
    ensures TableLookup(category).None? && !IsInheritedKey(category) ==> p == "CAS"
  {
    if TableLookup(category).Some? then TableLookup(category).value
    else if category == "__proto__" then "[object Object]"
    else if category == "constructor" then "function Object() { [native code] }"
    else if IsInheritedKey(category) then "function " + category + "() { [native code] }"
    else "CAS"
  }

  /** An inherited key such as "toString" does not fall back to "CAS": the
      case number then begins with a function's source text, not three
      letters. */
  lemma PrefixAsWrittenInheritedKey()
    ensures PrefixAsWritten("toString") == "function toString() { [native code] }"
    ensures |PrefixAsWritten("constructor")| != 3
  {
  }

  /** The prefix lookup with the evident intent: only the five own keys of
      the table map to their prefix, every other category gets "CAS". */
  function Prefix(category: string): (p: string)
    ensures |p| == 3 && '/' !in p
    ensures TableLookup(category).Some? <==> p != "CAS"
    ensures TableLookup(category).Some? ==> p == TableLookup(category).value
  {
    if TableLookup(category).Some? then TableLookup(category).value else "CAS"
  }

  /** The prefixes of the table, one lemma per row: CMI gets CTV, Criminal
      CRV, Family FAW, Commercial TCM, Civil CIV, anything else CAS. */
  lemma PrefixTableRows(category: string)
    ensures category == "CMI" ==> Prefix(category) == "CTV"
    ensures category == "Criminal" ==> Prefix(category) == "CRV"
    ensures category == "Family" ==> Prefix(category) == "FAW"
    ensures category == "Commercial" ==> Prefix(category) == "TCM"
    ensures category == "Civil" ==> Prefix(category) == "CIV"
    ensures category !in {"CMI", "Criminal", "Family", "Commercial", "Civil"} ==> Prefix(category) == "CAS"
  {
  }

  /** Each category of the table has its own prefix, so the prefix of a case
      number identifies its category unless it is "CAS". */
  lemma PrefixIdentifiesCategory(c1: string, c2: string)
    requires Prefix(c1) == Prefix(c2) != "CAS"
    ensures c1 == c2
  {
  }

  /** The two lookups agree on every category except the inherited keys. */
  lemma PrefixAgreesOutsideInheritedKeys(category: string)
    requires !IsInheritedKey(category)
    ensures PrefixAsWritten(category) == Prefix(category)
  {
  }

  /** `${prefix}/${year}/${randomNum}`: the prefix, a '/', the year's
      digits, a '/' and the number's digits. */
  function CaseNumber(prefix: string, year: nat, num: nat): (r: string)
    ensures |r| == |prefix| + |NatToDecimal(year)| + |NatToDecimal(num)| + 2
    ensures r[..|prefix|] == prefix && r[|prefix|] == '/'
  {
    prefix + "/" + NatToDecimal(year) + "/" + NatToDecimal(num)
  }

  /** `Math.floor(100000 + Math.random() * 900000)` for the draw `r`. */
  function RandomNumber(r: nat): (n: nat)
    requires r < 900000
    ensures 100000 <= n <= 999999
  {
    100000 + r
  }

  /** The case number minted for `category` in `year` with the draw `r`,
      with the corrected prefix lookup: three letters, a '/', the year, a
      '/' and six digits. */
  function Mint(category: string, year: nat, r: nat): (n: string)
    requires r < 900000
    ensures |n| == |NatToDecimal(year)| + 11
    ensures n[..3] == Prefix(category) && n[3] == '/'
  {
    RandomNumberSixDigits(r);
    CaseNumber(Prefix(category), year, RandomNumber(r))
  }

  /** The case number the create route mints, with the prefix lookup as
      written; it is the corrected `Mint` for every category but the keys
      every object inherits. */
  function MintAsWritten(category: string, year: nat, r: nat): (n: string)
    requires r < 900000
    ensures !IsInheritedKey(category) ==> n == Mint(category, year, r)
    ensures |n| > |PrefixAsWritten(category)|
    ensures n[..|PrefixAsWritten(category)|] == PrefixAsWritten(category)
    ensures n[|PrefixAsWritten(category)|] == '/'
  {
    CaseNumber(PrefixAsWritten(category), year, RandomNumber(r))
  }

  /** The number part always has exactly six digits. */
  lemma RandomNumberSixDigits(r: nat)
    requires r < 900000
    ensures |NatToDecimal(RandomNumber(r))| == 6
  {
    assert Pow10(5) == 100000 && Pow10(6) == 1000000;
    DecimalLength(RandomNumber(r), 5);
  }

  /** A minted number splits at '/' into the prefix of its category, the
      year and six digits that read back as the drawn number. */
  lemma MintFormat(category: string, year: nat, r: nat)
    requires r < 900000
    ensures Split(Mint(category, year, r), '/')
            == [Prefix(category), NatToDecimal(year), NatToDecimal(RandomNumber(r))]
    ensures |NatToDecimal(RandomNumber(r))| == 6
    ensures DecimalValue(NatToDecimal(RandomNumber(r))) == RandomNumber(r)
  {
    var parts := [Prefix(category), NatToDecimal(year), NatToDecimal(RandomNumber(r))];
    assert Join(parts[2..], '/') == parts[2];
    assert Join(parts[1..], '/') == parts[1] + "/" + parts[2];
    assert Join(parts, '/') == Mint(category, year, r);
    forall k | 0 <= k < 3 ensures '/' !in parts[k] {
      assert forall i :: 0 <= i < |parts[k]| ==> parts[k][i] != '/' by {
        if k > 0 {
          assert AllDigits(parts[k]);
        }
      }
    }
    SplitJoin(parts, '/');
    RandomNumberSixDigits(r);
    DecimalRoundTrip(RandomNumber(r));
  }

  /** Two mints give the same case number only when they agree on prefix,
      year and draw: a collision needs the same prefix, year and draw. */
  lemma MintInjective(c1: string, y1: nat, r1: nat, c2: string, y2: nat, r2: nat)
    requires r1 < 900000 && r2 < 900000
    requires Mint(c1, y1, r1) == Mint(c2, y2, r2)
    ensures Prefix(c1) == Prefix(c2) && y1 == y2 && r1 == r2
  {
    MintFormat(c1, y1, r1);
    MintFormat(c2, y2, r2);
    NatToDecimalInjective(y1, y2);
    NatToDecimalInjective(RandomNumber(r1), RandomNumber(r2));
  }
}
