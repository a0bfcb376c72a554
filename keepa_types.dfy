/** The enumerations, the error type and the verified category table of the
    Keepa API client (src/types.ts). */
module KeepaTypes {
  import opened Wrappers

  /** Marketplace codes of the `KeepaDomain` enumeration. */
  datatype Domain = US | UK | DE | FR | JP | CA | CN | IT | ES | IN | MX

  function DomainCode(d: Domain): (code: int)
    ensures 1 <= code <= 11
  {
    match d
    case US => 1 case UK => 2 case DE => 3 case FR => 4 case JP => 5 case CA => 6
    case CN => 7 case IT => 8 case ES => 9 case IN => 10 case MX => 11
  }

  /** The enumeration member a numeric domain code names, if any. */
  function DomainOfCode(code: int): (d: Option<Domain>)
    ensures d.Some? <==> 1 <= code <= 11
    ensures d.Some? ==> DomainCode(d.value) == code
  {
    if code == 1 then Some(US) else if code == 2 then Some(UK) else if code == 3 then Some(DE)
    else if code == 4 then Some(FR) else if code == 5 then Some(JP) else if code == 6 then Some(CA)
    else if code == 7 then Some(CN) else if code == 8 then Some(IT) else if code == 9 then Some(ES)
    else if code == 10 then Some(IN) else if code == 11 then Some(MX) else None
  }

  /** Codes and enumeration members correspond one to one. */
  lemma DomainCodeRoundTrip(d: Domain)
    ensures DomainOfCode(DomainCode(d)) == Some(d)
  {
  }

  /** Indices of the `KeepaDataType` enumeration the client relies on; every
      statistics array and every packed history row is indexed by them. */
  const AMAZON := 0
  const NEW := 1
  const USED := 2
  const SALES_RANK := 3
  const COUNT_NEW := 11
  const RATING := 16
  const COUNT_REVIEWS := 17
  const BUY_BOX := 18

  /** `KeepaError(message, statusCode?, tokensLeft?)`. */
  datatype KeepaError = KeepaError(message: string, statusCode: Option<int>, tokensLeft: Option<int>)

  /** A named category with its Amazon node id. */
  datatype Category = Category(name: string, id: int)

  /** The verified US category table, in declaration order. */
  const Categories: seq<Category> := [
    Category("Alexa Skills", 96814),
    Category("Amazon Autos", 32373),
    Category("Amazon Devices & Accessories", 402),
    Category("Appliances", 2619525011),
    Category("Apps & Games", 2350149011),
    Category("Arts, Crafts & Sewing", 2617941011),
    Category("Audible Books & Originals", 18145289011),
    Category("Automotive", 15684181),
    Category("Baby Products", 165796011),
    Category("Beauty & Personal Care", 3760911),
    Category("Books", 283155),
    Category("CDs & Vinyl", 5174),
    Category("Cell Phones & Accessories", 2335752011),
    Category("Clothing, Shoes & Jewelry", 7141123011),
    Category("Collectibles & Fine Art", 4991425011),
    Category("Credit & Payment Cards", 3561432011),
    Category("Digital Music", 163856011),
    Category("Electronics", 172282),
    Category("Everything Else", 10272111),
    Category("Gift Cards", 2238192011),
    Category("Grocery & Gourmet Food", 16310101),
    Category("Handmade Products", 11260432011),
    Category("Health & Household", 3760901),
    Category("Home & Kitchen", 1055398),
    Category("Industrial & Scientific", 16310091),
    Category("Kindle Store", 133140011),
    Category("Luxury Stores", 18981045011),
    Category("Magazine Subscriptions", 599858),
    Category("Movies & TV", 2625373011),
    Category("Musical Instruments", 11091801),
    Category("Office Products", 1064954),
    Category("Patio, Lawn & Garden", 2972638011),
    Category("Pet Supplies", 2619533011),
    Category("Prime Video", 2858778011),
    Category("Software", 229534),
    Category("Sports & Outdoors", 3375251),
    Category("Tools & Home Improvement", 228013),
    Category("Toys & Games", 165793011),
    Category("Video Games", 468642),
    Category("Video Shorts", 9013971011)
  ]

  /** Index of the first entry of `table` from `from` on that `found`
      accepts, or |table| if none: the `find` of getCategoryName by id, the
      key lookup of getCategoryId by name. */
  function FirstWhere(table: seq<Category>, found: Category -> bool, from: nat): (k: nat)
    requires from <= |table|
    ensures from <= k <= |table|
    ensures k < |table| ==> found(table[k])
    ensures forall j :: from <= j < k ==> !found(table[j])
    decreases |table| - from
  {
    if from == |table| then from
    else if found(table[from]) then from
    else FirstWhere(table, found, from + 1)
  }

  function HasId(id: int): Category -> bool {
    (c: Category) => c.id == id
  }

  function HasName(name: string): Category -> bool {
    (c: Category) => c.name == name
  }

  /** getCategoryName: the name of the first entry whose id equals `id`. */
  function GetCategoryName(id: int): (r: Option<string>)
    ensures r.None? <==> forall j :: 0 <= j < |Categories| ==> Categories[j].id != id
    ensures r.Some? ==> exists j :: 0 <= j < |Categories| && Categories[j] == Category(r.value, id)
  {
    var k := FirstWhere(Categories, HasId(id), 0);
    if k < |Categories| then Some(Categories[k].name) else None
  }

  /** getCategoryId: the id stored under the key `name`. */
  function GetCategoryId(name: string): (r: Option<int>)
    ensures r.None? <==> forall j :: 0 <= j < |Categories| ==> Categories[j].name != name
    ensures r.Some? ==> exists j :: 0 <= j < |Categories| && Categories[j] == Category(name, r.value)
  {
    var k := FirstWhere(Categories, HasName(name), 0);
    if k < |Categories| then Some(Categories[k].id) else None
  }

  /** getAvailableCategories: every key of the table, in declaration order. */
  function GetAvailableCategories(): (names: seq<string>)
    ensures |names| == |Categories| == 40
    ensures forall i :: 0 <= i < |names| ==> names[i] == Categories[i].name
  {
    seq(|Categories|, i requires 0 <= i < |Categories| => Categories[i].name)
  }

  /** The table inverted by hand, id to position; CategoryPositions checks it
      against the table, which is what makes the ids provably distinct. */
  ghost function PositionOfId(id: int): int {
    if id == 96814 then 0
    else if id == 32373 then 1
    else if id == 402 then 2
    else if id == 2619525011 then 3
    else if id == 2350149011 then 4
    else if id == 2617941011 then 5
    else if id == 18145289011 then 6
    else if id == 15684181 then 7
    else if id == 165796011 then 8
    else if id == 3760911 then 9
    else if id == 283155 then 10
    else if id == 5174 then 11
    else if id == 2335752011 then 12
    else if id == 7141123011 then 13
    else if id == 4991425011 then 14
    else if id == 3561432011 then 15
    else if id == 163856011 then 16
    else if id == 172282 then 17
    else if id == 10272111 then 18
    else if id == 2238192011 then 19
    else if id == 16310101 then 20
    else if id == 11260432011 then 21
    else if id == 3760901 then 22
    else if id == 1055398 then 23
    else if id == 16310091 then 24
    else if id == 133140011 then 25
    else if id == 18981045011 then 26
    else if id == 599858 then 27
    else if id == 2625373011 then 28
    else if id == 11091801 then 29
    else if id == 1064954 then 30
    else if id == 2972638011 then 31
    else if id == 2619533011 then 32
    else if id == 2858778011 then 33
    else if id == 229534 then 34
    else if id == 3375251 then 35
    else if id == 228013 then 36
    else if id == 165793011 then 37
    else if id == 468642 then 38
    else if id == 9013971011 then 39
    else -1
  }

  /** The table inverted by hand, name to position: within the table a name
      is already told apart by its length and its first two characters. */
  ghost function PositionOfName(name: string): int {
    if |name| < 2 then -1
    else if |name| == 12 && name[0] == 'A' && name[1] == 'l' then 0
    else if |name| == 12 && name[0] == 'A' && name[1] == 'm' then 1
    else if |name| == 28 && name[0] == 'A' && name[1] == 'm' then 2
    else if |name| == 10 && name[0] == 'A' && name[1] == 'p' then 3
    else if |name| == 12 && name[0] == 'A' && name[1] == 'p' then 4
    else if |name| == 21 && name[0] == 'A' && name[1] == 'r' then 5
    else if |name| == 25 && name[0] == 'A' && name[1] == 'u' then 6
    else if |name| == 10 && name[0] == 'A' && name[1] == 'u' then 7
    else if |name| == 13 && name[0] == 'B' && name[1] == 'a' then 8
    else if |name| == 22 && name[0] == 'B' && name[1] == 'e' then 9
    else if |name| == 5 && name[0] == 'B' && name[1] == 'o' then 10
    else if |name| == 11 && name[0] == 'C' && name[1] == 'D' then 11
    else if |name| == 25 && name[0] == 'C' && name[1] == 'e' then 12
    else if |name| == 25 && name[0] == 'C' && name[1] == 'l' then 13
    else if |name| == 23 && name[0] == 'C' && name[1] == 'o' then 14
    else if |name| == 22 && name[0] == 'C' && name[1] == 'r' then 15
    else if |name| == 13 && name[0] == 'D' && name[1] == 'i' then 16
    else if |name| == 11 && name[0] == 'E' && name[1] == 'l' then 17
    else if |name| == 15 && name[0] == 'E' && name[1] == 'v' then 18
    else if |name| == 10 && name[0] == 'G' && name[1] == 'i' then 19
    else if |name| == 22 && name[0] == 'G' && name[1] == 'r' then 20
    else if |name| == 17 && name[0] == 'H' && name[1] == 'a' then 21
    else if |name| == 18 && name[0] == 'H' && name[1] == 'e' then 22
    else if |name| == 14 && name[0] == 'H' && name[1] == 'o' then 23
    else if |name| == 23 && name[0] == 'I' && name[1] == 'n' then 24
    else if |name| == 12 && name[0] == 'K' && name[1] == 'i' then 25
    else if |name| == 13 && name[0] == 'L' && name[1] == 'u' then 26
    else if |name| == 22 && name[0] == 'M' && name[1] == 'a' then 27
    else if |name| == 11 && name[0] == 'M' && name[1] == 'o' then 28
    else if |name| == 19 && name[0] == 'M' && name[1] == 'u' then 29
    else if |name| == 15 && name[0] == 'O' && name[1] == 'f' then 30
    else if |name| == 20 && name[0] == 'P' && name[1] == 'a' then 31
    else if |name| == 12 && name[0] == 'P' && name[1] == 'e' then 32
    else if |name| == 11 && name[0] == 'P' && name[1] == 'r' then 33
    else if |name| == 8 && name[0] == 'S' && name[1] == 'o' then 34
    else if |name| == 17 && name[0] == 'S' && name[1] == 'p' then 35
    else if |name| == 24 && name[0] == 'T' && name[1] == 'o' then 36
    else if |name| == 12 && name[0] == 'T' && name[1] == 'o' then 37
    else if |name| == 11 && name[0] == 'V' && name[1] == 'i' then 38
    else if |name| == 12 && name[0] == 'V' && name[1] == 'i' then 39
    else -1
  }

  lemma IdPositionFrom0(k: nat)
    requires 0 <= k < 4
    ensures PositionOfId(Categories[k].id) == k
  {
    if k == 0 {
    }
    else if k == 1 {
    }
    else if k == 2 {
    }
    else {
    }
  }

  lemma IdPositionFrom4(k: nat)
    requires 4 <= k < 8
    ensures PositionOfId(Categories[k].id) == k
  {
    if k == 4 {
    }
    else if k == 5 {
    }
    else if k == 6 {
    }
    else {
    }
  }

  lemma IdPositionFrom8(k: nat)
    requires 8 <= k < 12
    ensures PositionOfId(Categories[k].id) == k
  {
    if k == 8 {
    }
    else if k == 9 {
    }
    else if k == 10 {
    }
    else {
    }
  }

  lemma IdPositionFrom12(k: nat)
    requires 12 <= k < 16
    ensures PositionOfId(Categories[k].id) == k
  {
    if k == 12 {
    }
    else if k == 13 {
    }
    else if k == 14 {
    }
    else {
    }
  }

  lemma IdPositionFrom16(k: nat)
    requires 16 <= k < 20
    ensures PositionOfId(Categories[k].id) == k
  {
    if k == 16 {
    }
    else if k == 17 {
    }
    else if k == 18 {
    }
    else {
    }
  }

  lemma IdPositionFrom20(k: nat)
    requires 20 <= k < 24
    ensures PositionOfId(Categories[k].id) == k
  {
    if k == 20 {
    }
    else if k == 21 {
    }
    else if k == 22 {
    }
    else {
    }
  }

  lemma IdPositionFrom24(k: nat)
    requires 24 <= k < 28
    ensures PositionOfId(Categories[k].id) == k
  {
    if k == 24 {
    }
    else if k == 25 {
    }
    else if k == 26 {
    }
    else {
    }
  }

  lemma IdPositionFrom28(k: nat)
    requires 28 <= k < 32
    ensures PositionOfId(Categories[k].id) == k
  {
    if k == 28 {
    }
    else if k == 29 {
    }
    else if k == 30 {
    }
    else {
    }
  }

  lemma IdPositionFrom32(k: nat)
    requires 32 <= k < 36
    ensures PositionOfId(Categories[k].id) == k
  {
    if k == 32 {
    }
    else if k == 33 {
    }
    else if k == 34 {
    }
    else {
    }
  }

  lemma IdPositionFrom36(k: nat)
    requires 36 <= k < 40
    ensures PositionOfId(Categories[k].id) == k
  {
    if k == 36 {
    }
    else if k == 37 {
    }
    else if k == 38 {
    }
    else {
    }
  }

  lemma IdPosition(k: nat)
    requires k < |Categories|
    ensures PositionOfId(Categories[k].id) == k
  {
    if k < 4 {
      IdPositionFrom0(k);
    } else if k < 8 {
      IdPositionFrom4(k);
    } else if k < 12 {
      IdPositionFrom8(k);
    } else if k < 16 {
      IdPositionFrom12(k);
    } else if k < 20 {
      IdPositionFrom16(k);
    } else if k < 24 {
      IdPositionFrom20(k);
    } else if k < 28 {
      IdPositionFrom24(k);
    } else if k < 32 {
      IdPositionFrom28(k);
    } else if k < 36 {
      IdPositionFrom32(k);
    } else {
      IdPositionFrom36(k);
    }
  }

  lemma NamePositionFrom0(k: nat)
    requires 0 <= k < 4
    ensures PositionOfName(Categories[k].name) == k
  {
    if k == 0 {
    }
    else if k == 1 {
    }
    else if k == 2 {
    }
    else {
    }
  }

  lemma NamePositionFrom4(k: nat)
    requires 4 <= k < 8
    ensures PositionOfName(Categories[k].name) == k
  {
    if k == 4 {
    }
    else if k == 5 {
    }
    else if k == 6 {
    }
    else {
    }
  }

  lemma NamePositionFrom8(k: nat)
    requires 8 <= k < 12
    ensures PositionOfName(Categories[k].name) == k
  {
    if k == 8 {
    }
    else if k == 9 {
    }
    else if k == 10 {
    }
    else {
    }
  }

  lemma NamePositionFrom12(k: nat)
    requires 12 <= k < 16
    ensures PositionOfName(Categories[k].name) == k
  {
    if k == 12 {
    }
    else if k == 13 {
    }
    else if k == 14 {
    }
    else {
    }
  }

  lemma NamePositionFrom16(k: nat)
    requires 16 <= k < 20
    ensures PositionOfName(Categories[k].name) == k
  {
    if k == 16 {
    }
    else if k == 17 {
    }
    else if k == 18 {
    }
    else {
    }
  }

  lemma NamePositionFrom20(k: nat)
    requires 20 <= k < 24
    ensures PositionOfName(Categories[k].name) == k
  {
    if k == 20 {
    }
    else if k == 21 {
    }
    else if k == 22 {
    }
    else {
    }
  }

  lemma NamePositionFrom24(k: nat)
    requires 24 <= k < 28
    ensures PositionOfName(Categories[k].name) == k
  {
    if k == 24 {
    }
    else if k == 25 {
    }
    else if k == 26 {
    }
    else {
    }
  }

  lemma NamePositionFrom28(k: nat)
    requires 28 <= k < 32
    ensures PositionOfName(Categories[k].name) == k
  {
    if k == 28 {
    }
    else if k == 29 {
    }
    else if k == 30 {
    }
    else {
    }
  }

  lemma NamePositionFrom32(k: nat)
    requires 32 <= k < 36
    ensures PositionOfName(Categories[k].name) == k
  {
    if k == 32 {
    }
    else if k == 33 {
    }
    else if k == 34 {
    }
    else {
    }
  }

  lemma NamePositionFrom36(k: nat)
    requires 36 <= k < 40
    ensures PositionOfName(Categories[k].name) == k
  {
    if k == 36 {
    }
    else if k == 37 {
    }
    else if k == 38 {
    }
    else {
    }
  }

  lemma NamePosition(k: nat)
    requires k < |Categories|
    ensures PositionOfName(Categories[k].name) == k
  {
    if k < 4 {
      NamePositionFrom0(k);
    } else if k < 8 {
      NamePositionFrom4(k);
    } else if k < 12 {
      NamePositionFrom8(k);
    } else if k < 16 {
      NamePositionFrom12(k);
    } else if k < 20 {
      NamePositionFrom16(k);
    } else if k < 24 {
      NamePositionFrom20(k);
    } else if k < 28 {
      NamePositionFrom24(k);
    } else if k < 32 {
      NamePositionFrom28(k);
    } else if k < 36 {
      NamePositionFrom32(k);
    } else {
      NamePositionFrom36(k);
    }
  }

  lemma CategoryPositions(k: nat)
    requires k < |Categories|
    ensures PositionOfId(Categories[k].id) == k
    ensures PositionOfName(Categories[k].name) == k
  {
    IdPosition(k);
    NamePosition(k);
  }

  /** Table ids are pairwise distinct, and so are table names. */
  lemma {:induction false} EntriesDistinct(i: nat, j: nat)
    requires i < j < |Categories|
    ensures Categories[i].id != Categories[j].id
    ensures Categories[i].name != Categories[j].name
  {
    CategoryPositions(i);
    CategoryPositions(j);
  }

  /** Every id is a positive integer below 99999999999. */
  lemma IdsInRange(k: nat)
    requires k < |Categories|
    ensures 0 < Categories[k].id < 99999999999
  {
  }

  /** Forward and reverse lookups agree on every table entry. */
  lemma {:induction false} LookupsAgree(k: nat)
    requires k < |Categories|
    ensures GetCategoryName(Categories[k].id) == Some(Categories[k].name)
    ensures GetCategoryId(Categories[k].name) == Some(Categories[k].id)
  {
    var a := FirstWhere(Categories, HasId(Categories[k].id), 0);
    if a != k {
      EntriesDistinct(if a < k then a else k, if a < k then k else a);
    }
    var b := FirstWhere(Categories, HasName(Categories[k].name), 0);
    if b != k {
      EntriesDistinct(if b < k then b else k, if b < k then k else b);
    }
  }

  /** For every name in the table, getCategoryName(getCategoryId(name)) == name;
      for every id in the table, getCategoryId(getCategoryName(id)) == id. */
  lemma {:induction false} NameIdRoundTrip(name: string, id: int)
    ensures GetCategoryId(name).Some? ==> GetCategoryName(GetCategoryId(name).value) == Some(name)
    ensures GetCategoryName(id).Some? ==> GetCategoryId(GetCategoryName(id).value) == Some(id)
  {
    var a := FirstWhere(Categories, HasName(name), 0);
    if a < |Categories| {
      assert Categories[a].name == name;
      LookupsAgree(a);
    }
    var b := FirstWhere(Categories, HasId(id), 0);
    if b < |Categories| {
      assert Categories[b].id == id;
      LookupsAgree(b);
    }
  }

  /** Ids outside the table, such as 0, -1 and 999999999, have no name. */
  lemma {:induction false} UnknownIdsHaveNoName(id: int)
    requires PositionOfId(id) == -1
    ensures GetCategoryName(id) == None
  {
    forall j | 0 <= j < |Categories|
      ensures Categories[j].id != id
    {
      CategoryPositions(j);
    }
  }

  /** Example: id 172282 is Electronics, and Electronics is id 172282. */
  lemma {:induction false} ElectronicsLookup()
    ensures GetCategoryName(172282) == Some("Electronics")
    ensures GetCategoryId("Electronics") == Some(172282)
  {
    assert Categories[17] == Category("Electronics", 172282);
    LookupsAgree(17);
  }

  /** Example: 999999999, 0 and -1 are not table ids. */
  lemma UnknownLookup()
    ensures GetCategoryName(999999999) == None
    ensures GetCategoryName(0) == None
    ensures GetCategoryName(-1) == None
  {
    NotAnId(999999999);
    NotAnId(0);
    NotAnId(-1);
  }

  lemma NotAnId(id: int)
    requires id in {999999999, 0, -1}
    ensures GetCategoryName(id) == None
  {
    UnknownIdsHaveNoName(id);
  }
}
