/**
 * The three code pages of conv.c and their byte-to-codepoint rules: the
 * koi8map lookup table for KOI8-R and the offset-plus-two-special-bytes
 * rules for ISO/IEC 8859-5 and Windows-1251.  Each rule maps one byte read
 * by fgetc (0..255) to the wchar_t value written by fputwc.
 */
module CodePages {
  import opened Wrappers

  /** A value returned by fgetc before EOF. */
  type Byte = b: int | 0 <= b < 256

  datatype CodePage = Koi8R | Cp1251 | Iso8859_5

  /** The canonical names that parseArgs stores (the KOI, WIN and ISO macros). */
  const KOI: string := "koi8-r"
  const WIN: string := "cp-1251"
  const ISO: string := "iso8859-5"

  function Name(cp: CodePage): string
  {
    match cp
    case Koi8R => KOI
    case Cp1251 => WIN
    case Iso8859_5 => ISO
  }

  /** U+0401 CYRILLIC CAPITAL LETTER IO and U+0451 CYRILLIC SMALL LETTER IO. */
  const CapitalYo := 1025
  const SmallYo := 1105
  /** The 64 basic Cyrillic letters U+0410..U+044F. */
  const FirstLetter := 1040
  const LastLetter := 1103

  predicate IsBasicLetter(u: int)
  {
    FirstLetter <= u <= LastLetter
  }

  // ---------------------------------------------------------------- KOI8-R

  /**
   * koi8map, entry for entry and line for line as conv.c lists it: 255
   * entries, read at index ch-1, so entry i belongs to byte i+1.  Entry 162
   * (byte 0xA3) is U+0401 and entry 178 (byte 0xB3) is U+0451, the reverse
   * of the assignment in RFC 1489; the model keeps the program's values.
   */
  const Koi8Map: seq<int> :=
    [0, 0, 0, 0, 0, 0, 0, 0, 0, 0, 0, 0, 0, 0, 0, 0, 0, 0, 0, 0, 0, 0, 0, 0, 0, 0, 0] +
    [0, 0, 0, 0, 0, 0, 0, 0, 0, 0, 0, 0, 0, 0, 0, 0, 0, 0, 0, 0, 0, 0, 0, 0, 0, 0, 0] +
    [0, 0, 0, 0, 0, 0, 0, 0, 0, 0, 0, 0, 0, 0, 0, 0, 0, 0, 0, 0, 0, 0, 0, 0, 0, 0, 0] +
    [0, 0, 0, 0, 0, 0, 0, 0, 0, 0, 0, 0, 0, 0, 0, 0, 0, 0, 0, 0, 0, 0, 0, 0, 0, 0, 0] +
    [0, 0, 0, 0, 0, 0, 0, 0, 0, 0, 0, 0, 0, 0, 0, 0, 0, 0, 0, 0, 0, 0, 0, 0, 0, 0, 0] +
    [0, 0, 0, 0, 0, 0, 0, 0, 0, 0, 0, 0, 0, 0, 0, 0, 0, 0, 0, 0, 0, 0, 0, 0, 0, 0, 0] +
    [1025, 0, 0, 0, 0, 0, 0, 0, 0, 0, 0, 0, 0, 0, 0, 0, 1105, 0, 0, 0, 0, 0, 0, 0, 0] +
    [0, 0, 0, 0, 1102, 1072, 1073, 1094, 1076, 1077, 1092, 1075, 1093, 1080, 1081, 1082] +
    [1083, 1084, 1085, 1086, 1087, 1103, 1088, 1089, 1090, 1091, 1078, 1074, 1100, 1099] +
    [1079, 1096, 1101, 1097, 1095, 1098, 1070, 1040, 1041, 1062, 1044, 1045, 1060, 1043] +
    [1061, 1048, 1049, 1050, 1051, 1052, 1053, 1054, 1055, 1071, 1056, 1057, 1058, 1059] +
    [1046, 1042, 1068, 1067, 1047, 1064, 1069, 1065, 1063, 1066]

  /** The bytes for which the KOI8-R case reads the table. */
  predicate KoiOverrides(ch: Byte)
  {
    (192 <= ch <= 255) || ch == 163 || ch == 179
  }

  /** The table index `ch-1` used for a byte that reads the table. */
  function KoiIndex(ch: Byte): (i: nat)
    requires KoiOverrides(ch)
    ensures |Koi8Map| == 255 && 162 <= i <= 254
    ensures ch == 163 <==> i == 162
    ensures ch == 179 <==> i == 178
  {
    ch - 1
  }

  function KoiMap(ch: Byte): int
  {
    if KoiOverrides(ch) then Koi8Map[KoiIndex(ch)] else ch
  }

  /**
   * The reverse of the table's letter block: entry u-1040 is the KOI8-R
   * byte whose table entry is the letter u.
   */
  const KoiLetterBytes: seq<Byte> :=
    [225, 226, 247, 231, 228, 229, 246, 250, 233, 234, 235, 236, 237, 238, 239, 240] +
    [242, 243, 244, 245, 230, 232, 227, 254, 251, 253, 255, 249, 248, 252, 224, 241] +
    [193, 194, 215, 199, 196, 197, 214, 218, 201, 202, 203, 204, 205, 206, 207, 208] +
    [210, 211, 212, 213, 198, 200, 195, 222, 219, 221, 223, 217, 216, 220, 192, 209]

  /** Facts about the letter with offset i (byte 192+i, codepoint 1040+i). */
  ghost predicate LetterEntryOk(i: int)
  {
    0 <= i < 64 &&
    var e := Koi8Map[191 + i];
    IsBasicLetter(e) && KoiLetterBytes[e - FirstLetter] == 192 + i
    && 192 <= KoiLetterBytes[i] && Koi8Map[KoiLetterBytes[i] - 1] == FirstLetter + i
    && (i < 32 ==> Koi8Map[223 + i] == e - 32)
  }

  /** p holds of every integer in [i, n). */
  ghost predicate HoldsFrom(p: int -> bool, i: int, n: int)
    decreases n - i
  {
    i >= n || (p(i) && HoldsFrom(p, i + 1, n))
  }

  lemma {:induction false} HoldsFromAll(p: int -> bool, i: int, n: int)
    requires HoldsFrom(p, i, n)
    ensures forall j :: i <= j < n ==> p(j)
    decreases n - i
  {
    if i < n {
      HoldsFromAll(p, i + 1, n);
    }
  }

  /** The letter entries 191..202 (table line 49), each step naming the entry it reads. */
  lemma KoiTableLine49()
    ensures HoldsFrom(LetterEntryOk, 0, 12)
  {
    assert Koi8Map[202] == 1082;
    assert HoldsFrom(LetterEntryOk, 11, 12);
    assert Koi8Map[201] == 1081;
    assert HoldsFrom(LetterEntryOk, 10, 12);
    assert Koi8Map[200] == 1080;
    assert HoldsFrom(LetterEntryOk, 9, 12);
    assert Koi8Map[199] == 1093;
    assert HoldsFrom(LetterEntryOk, 8, 12);
    assert Koi8Map[198] == 1075;
    assert HoldsFrom(LetterEntryOk, 7, 12);
    assert Koi8Map[197] == 1092;
    assert HoldsFrom(LetterEntryOk, 6, 12);
    assert Koi8Map[196] == 1077;
    assert HoldsFrom(LetterEntryOk, 5, 12);
    assert Koi8Map[195] == 1076;
    assert HoldsFrom(LetterEntryOk, 4, 12);
    assert Koi8Map[194] == 1094;
    assert HoldsFrom(LetterEntryOk, 3, 12);
    assert Koi8Map[193] == 1073;
    assert HoldsFrom(LetterEntryOk, 2, 12);
    assert Koi8Map[192] == 1072;
    assert HoldsFrom(LetterEntryOk, 1, 12);
    assert Koi8Map[191] == 1102;
    assert HoldsFrom(LetterEntryOk, 0, 12);
  }

  /** The letter entries 203..216 (table line 50), each step naming the entry it reads. */
  lemma KoiTableLine50()
    ensures HoldsFrom(LetterEntryOk, 12, 26)
  {
    assert Koi8Map[216] == 1099;
    assert HoldsFrom(LetterEntryOk, 25, 26);
    assert Koi8Map[215] == 1100;
    assert HoldsFrom(LetterEntryOk, 24, 26);
    assert Koi8Map[214] == 1074;
    assert HoldsFrom(LetterEntryOk, 23, 26);
    assert Koi8Map[213] == 1078;
    assert HoldsFrom(LetterEntryOk, 22, 26);
    assert Koi8Map[212] == 1091;
    assert HoldsFrom(LetterEntryOk, 21, 26);
    assert Koi8Map[211] == 1090;
    assert HoldsFrom(LetterEntryOk, 20, 26);
    assert Koi8Map[210] == 1089;
    assert HoldsFrom(LetterEntryOk, 19, 26);
    assert Koi8Map[209] == 1088;
    assert HoldsFrom(LetterEntryOk, 18, 26);
    assert Koi8Map[208] == 1103;
    assert HoldsFrom(LetterEntryOk, 17, 26);
    assert Koi8Map[207] == 1087;
    assert HoldsFrom(LetterEntryOk, 16, 26);
    assert Koi8Map[206] == 1086;
    assert HoldsFrom(LetterEntryOk, 15, 26);
    assert Koi8Map[205] == 1085;
    assert HoldsFrom(LetterEntryOk, 14, 26);
    assert Koi8Map[204] == 1084;
    assert HoldsFrom(LetterEntryOk, 13, 26);
    assert Koi8Map[203] == 1083;
    assert HoldsFrom(LetterEntryOk, 12, 26);
  }

  /** The letter entries 217..230 (table line 51), each step naming the entry it reads. */
  lemma KoiTableLine51()
    ensures HoldsFrom(LetterEntryOk, 26, 40)
  {
    assert Koi8Map[230] == 1043;
    assert HoldsFrom(LetterEntryOk, 39, 40);
    assert Koi8Map[229] == 1060;
    assert HoldsFrom(LetterEntryOk, 38, 40);
    assert Koi8Map[228] == 1045;
    assert HoldsFrom(LetterEntryOk, 37, 40);
    assert Koi8Map[227] == 1044;
    assert HoldsFrom(LetterEntryOk, 36, 40);
    assert Koi8Map[226] == 1062;
    assert HoldsFrom(LetterEntryOk, 35, 40);
    assert Koi8Map[225] == 1041;
    assert HoldsFrom(LetterEntryOk, 34, 40);
    assert Koi8Map[224] == 1040;
    assert HoldsFrom(LetterEntryOk, 33, 40);
    assert Koi8Map[223] == 1070;
    assert HoldsFrom(LetterEntryOk, 32, 40);
    assert Koi8Map[222] == 1098;
    assert HoldsFrom(LetterEntryOk, 31, 40);
    assert Koi8Map[221] == 1095;
    assert HoldsFrom(LetterEntryOk, 30, 40);
    assert Koi8Map[220] == 1097;
    assert HoldsFrom(LetterEntryOk, 29, 40);
    assert Koi8Map[219] == 1101;
    assert HoldsFrom(LetterEntryOk, 28, 40);
    assert Koi8Map[218] == 1096;
    assert HoldsFrom(LetterEntryOk, 27, 40);
    assert Koi8Map[217] == 1079;
    assert HoldsFrom(LetterEntryOk, 26, 40);
  }

  /** The letter entries 231..244 (table line 52), each step naming the entry it reads. */
  lemma KoiTableLine52()
    ensures HoldsFrom(LetterEntryOk, 40, 54)
  {
    assert Koi8Map[244] == 1059;
    assert HoldsFrom(LetterEntryOk, 53, 54);
    assert Koi8Map[243] == 1058;
    assert HoldsFrom(LetterEntryOk, 52, 54);
    assert Koi8Map[242] == 1057;
    assert HoldsFrom(LetterEntryOk, 51, 54);
    assert Koi8Map[241] == 1056;
    assert HoldsFrom(LetterEntryOk, 50, 54);
    assert Koi8Map[240] == 1071;
    assert HoldsFrom(LetterEntryOk, 49, 54);
    assert Koi8Map[239] == 1055;
    assert HoldsFrom(LetterEntryOk, 48, 54);
    assert Koi8Map[238] == 1054;
    assert HoldsFrom(LetterEntryOk, 47, 54);
    assert Koi8Map[237] == 1053;
    assert HoldsFrom(LetterEntryOk, 46, 54);
    assert Koi8Map[236] == 1052;
    assert HoldsFrom(LetterEntryOk, 45, 54);
    assert Koi8Map[235] == 1051;
    assert HoldsFrom(LetterEntryOk, 44, 54);
    assert Koi8Map[234] == 1050;
    assert HoldsFrom(LetterEntryOk, 43, 54);
    assert Koi8Map[233] == 1049;
    assert HoldsFrom(LetterEntryOk, 42, 54);
    assert Koi8Map[232] == 1048;
    assert HoldsFrom(LetterEntryOk, 41, 54);
    assert Koi8Map[231] == 1061;
    assert HoldsFrom(LetterEntryOk, 40, 54);
  }

  /**
   * The letter entries 245..254 (table line 53).  Unlike lines 49-52, this
   * short line needs no hints: the verifier reads its ten entries unaided.
   */
  lemma KoiTableLine53()
    ensures HoldsFrom(LetterEntryOk, 54, 64)
  {
  }

  /** The whole letter block of the table, bytes 192..255. */
  lemma KoiLetterTable()
    ensures forall i :: 0 <= i < 64 ==> LetterEntryOk(i)
  {
    KoiTableLine49();
    HoldsFromAll(LetterEntryOk, 0, 12);
    KoiTableLine50();
    HoldsFromAll(LetterEntryOk, 12, 26);
    KoiTableLine51();
    HoldsFromAll(LetterEntryOk, 26, 40);
    KoiTableLine52();
    HoldsFromAll(LetterEntryOk, 40, 54);
    KoiTableLine53();
    HoldsFromAll(LetterEntryOk, 54, 64);
  }

  // ---------------------------------------------------------- ISO 8859-5

  predicate IsoOverrides(ch: Byte)
  {
    (176 <= ch <= 239) || ch == 161 || ch == 241
  }

  function IsoMap(ch: Byte): int
  {
    if 176 <= ch <= 239 then 864 + ch
    else if ch == 161 then 1025
    else if ch == 241 then 1105
    else ch
  }

  // ----------------------------------------------------------- CP-1251

  predicate CpOverrides(ch: Byte)
  {
    (192 <= ch <= 255) || ch == 168 || ch == 184
  }

  function CpMap(ch: Byte): int
  {
    if 192 <= ch <= 255 then 848 + ch
    else if ch == 168 then 1025
    else if ch == 184 then 1105
    else ch
  }

  // ------------------------------------------------- the page-level view

  /** The bytes a code page rewrites; every other byte keeps its value. */
  predicate Overrides(cp: CodePage, ch: Byte)
  {
    match cp
    case Koi8R => KoiOverrides(ch)
    case Cp1251 => CpOverrides(ch)
    case Iso8859_5 => IsoOverrides(ch)
  }

  /** The codepoint written for byte ch under code page cp. */
  function Map(cp: CodePage, ch: Byte): int
  {
    match cp
    case Koi8R => KoiMap(ch)
    case Cp1251 => CpMap(ch)
    case Iso8859_5 => IsoMap(ch)
  }

  /**
   * The reverse direction, from a codepoint back to the byte of page cp
   * that produces it (None when no byte does).
   */
  function Unmap(cp: CodePage, u: int): Option<Byte>
  {
    if IsBasicLetter(u) then
      match cp
      case Koi8R => Some(KoiLetterBytes[u - FirstLetter])
      case Cp1251 => Some(u - 848)
      case Iso8859_5 => Some(u - 864)
    else if u == CapitalYo then
      Some(match cp case Koi8R => 163 case Cp1251 => 168 case Iso8859_5 => 161)
    else if u == SmallYo then
      Some(match cp case Koi8R => 179 case Cp1251 => 184 case Iso8859_5 => 241)
    else if 0 <= u < 256 && !Overrides(cp, u) then Some(u)
    else None
  }

  // -------------------------------------------------------- KOI8-R facts

  /**
   * Bytes 192..255 read a basic Cyrillic letter from the table, and the
   * encoder table takes that letter back to the byte.
   */
  lemma KoiLetterBlock(b: Byte)
    requires 192 <= b <= 255
    ensures IsBasicLetter(KoiMap(b))
    ensures KoiLetterBytes[KoiMap(b) - FirstLetter] == b
  {
    KoiLetterTable();
    assert LetterEntryOk(b - 192);
  }

  /** Every basic Cyrillic letter is read for some byte of 192..255. */
  lemma KoiLettersCovered(u: int)
    requires IsBasicLetter(u)
    ensures 192 <= KoiLetterBytes[u - FirstLetter] <= 255
    ensures KoiMap(KoiLetterBytes[u - FirstLetter]) == u
  {
    KoiLetterTable();
    assert LetterEntryOk(u - FirstLetter);
  }

  /** The 64 letter entries are pairwise distinct ... */
  lemma KoiLettersDistinct(b1: Byte, b2: Byte)
    requires 192 <= b1 <= 255 && 192 <= b2 <= 255 && b1 != b2
    ensures KoiMap(b1) != KoiMap(b2)
  {
    KoiLetterBlock(b1);
    KoiLetterBlock(b2);
  }

  /** ... and they are exactly U+0410..U+044F. */
  lemma KoiLetterImage(u: int)
    ensures IsBasicLetter(u) <==> exists b: Byte :: 192 <= b <= 255 && KoiMap(b) == u
  {
    if IsBasicLetter(u) {
      KoiLettersCovered(u);
      var b: Byte := KoiLetterBytes[u - FirstLetter];
      assert KoiMap(b) == u;
    }
    forall b: Byte | 192 <= b <= 255 && KoiMap(b) == u
      ensures IsBasicLetter(u)
    {
      KoiLetterBlock(b);
    }
  }

  /** A lower-case byte 192..223 and the byte 32 above it give the same letter in both cases. */
  lemma KoiCaseOffset(b: Byte)
    requires 192 <= b <= 223
    ensures KoiMap(b + 32) == KoiMap(b) - 32
  {
    KoiLetterTable();
    assert LetterEntryOk(b - 192);
  }

  /** The two single bytes that read the table outside the letter block. */
  lemma KoiSpecialBytes()
    ensures KoiIndex(163) == 162 && KoiMap(163) == CapitalYo
    ensures KoiIndex(179) == 178 && KoiMap(179) == SmallYo
  {
  }

  lemma KoiExamples()
    ensures KoiMap(0xC0) == 0x044E && KoiMap(0xC1) == 0x0430
    ensures KoiMap(0xE1) == 0x0410 && KoiMap(0xFF) == 0x042A
  {
  }

  // ---------------------------------------------- ISO 8859-5 and CP-1251

  lemma IsoRules(b: Byte)
    ensures 176 <= b <= 239 ==> IsoMap(b) == b + 864 && IsBasicLetter(IsoMap(b))
    ensures b == 161 ==> IsoMap(b) == CapitalYo
    ensures b == 241 ==> IsoMap(b) == SmallYo
    ensures !IsoOverrides(b) ==> IsoMap(b) == b
  {
  }

  lemma CpRules(b: Byte)
    ensures 192 <= b <= 255 ==> CpMap(b) == b + 848 && IsBasicLetter(CpMap(b))
    ensures b == 168 ==> CpMap(b) == CapitalYo
    ensures b == 184 ==> CpMap(b) == SmallYo
    ensures !CpOverrides(b) ==> CpMap(b) == b
  {
  }

  // ------------------------------------------------------- all three pages

  /**
   * A byte changes value exactly when its page overrides it, and an
   * overridden byte becomes Ё, ё or a basic Cyrillic letter.
   */
  lemma ChangesExactlyOverrides(cp: CodePage, b: Byte)
    ensures Map(cp, b) != b <==> Overrides(cp, b)
    ensures Overrides(cp, b) ==>
      Map(cp, b) == CapitalYo || Map(cp, b) == SmallYo || IsBasicLetter(Map(cp, b))
  {
    if cp == Koi8R && 192 <= b {
      KoiLetterBlock(b);
    }
  }

  /** Identity default: ASCII under every page, and KOI8-R 128..191 except 163 and 179. */
  lemma IdentityDefault(cp: CodePage, b: Byte)
    ensures b < 128 ==> Map(cp, b) == b
    ensures cp == Koi8R && b < 192 && b != 163 && b != 179 ==> Map(cp, b) == b
  {
  }

  /** Every result is the input byte itself or lies in U+0401..U+0451. */
  lemma MapRange(cp: CodePage, b: Byte)
    ensures Map(cp, b) == b || CapitalYo <= Map(cp, b) <= SmallYo
  {
    ChangesExactlyOverrides(cp, b);
  }

  /** Decoding a byte and encoding the codepoint gives the byte back. */
  lemma MapRoundTrip(cp: CodePage, b: Byte)
    ensures Unmap(cp, Map(cp, b)) == Some(b)
  {
    if cp == Koi8R && 192 <= b {
      KoiLetterBlock(b);
    }
  }

  /** Whatever the encoder returns decodes to the codepoint it was given. */
  lemma UnmapSound(cp: CodePage, u: int)
    requires Unmap(cp, u).Some?
    ensures Map(cp, Unmap(cp, u).value) == u
  {
    if cp == Koi8R && IsBasicLetter(u) {
      KoiLettersCovered(u);
    }
  }

  /** No two bytes of one page give the same codepoint. */
  lemma MapInjective(cp: CodePage, b1: Byte, b2: Byte)
    requires Map(cp, b1) == Map(cp, b2)
    ensures b1 == b2
  {
    MapRoundTrip(cp, b1);
    MapRoundTrip(cp, b2);
  }
}
