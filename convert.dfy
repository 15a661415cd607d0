/**
 * The conversion loop of conv.c (convertIt): read the input byte by byte
 * until EOF, choose the rule by the first letter of the stored code page
 * name, and write one wide character per byte.
 *
 * The input file is the sequence of bytes fgetc returns before EOF; the
 * output file is the sequence of codepoints handed to fputwc, in order.
 */
module Convert {
  import opened Wrappers
  import opened CodePages

  /** The character the switch looks at: `*args->codePage`, NUL for an empty name. */
  function Selector(codePage: string): char
  {
    if codePage == [] then '\0' else codePage[0]
  }

  /** One pass of the switch: a letter with no case leaves the byte as it is. */
  function ConvertByte(sel: char, ch: Byte): int
  {
    match sel
    case 'k' => KoiMap(ch)
    case 'i' => IsoMap(ch)
    case 'c' => CpMap(ch)
    case _ => ch
  }

  /** What the loop writes for a whole input: one codepoint per byte, in input order. */
  function Transcode(sel: char, input: seq<Byte>): (out: seq<int>)
    ensures |out| == |input|
    ensures forall i :: 0 <= i < |input| ==> out[i] == ConvertByte(sel, input[i])
  {
    if input == [] then []
    else Transcode(sel, input[..|input| - 1]) + [ConvertByte(sel, input[|input| - 1])]
  }

  /**
   * The while loop of convertIt: w_ch starts as the byte, the case of the
   * code page overwrites it, and it is appended to the output.
   */
  method ConvertIt(codePage: string, input: seq<Byte>) returns (out: seq<int>)
    ensures out == Transcode(Selector(codePage), input)
  {
    var sel := Selector(codePage);
    out := [];
    var pos := 0;
    while pos < |input|
      invariant 0 <= pos <= |input|
      invariant out == Transcode(sel, input[..pos])
    {
      var ch := input[pos];
      pos := pos + 1;
      var w: int := ch;
      match sel {
        case 'k' =>
          if (192 <= ch <= 255) || ch == 163 || ch == 179 {
            w := Koi8Map[ch - 1];
          }
        case 'i' =>
          if 176 <= ch <= 239 {
            w := 864 + ch;
          } else if ch == 161 {
            w := 1025;
          } else if ch == 241 {
            w := 1105;
          }
        case 'c' =>
          if 192 <= ch <= 255 {
            w := 848 + ch;
          } else if ch == 168 {
            w := 1025;
          } else if ch == 184 {
            w := 1105;
          }
        case _ =>
      }
      assert w == ConvertByte(sel, ch);
      assert input[..pos] == input[..pos - 1] + [ch];
      out := out + [w];
    }
    assert input[..pos] == input;
  }

  // ------------------------------------------------------------ properties

  /** The canonical name of each page selects that page's case of the switch. */
  lemma SwitchSelectsPage(cp: CodePage, ch: Byte)
    ensures ConvertByte(Selector(Name(cp)), ch) == Map(cp, ch)
  {
  }

  /** The three canonical names start with three different letters. */
  lemma SelectorsDistinct(cp1: CodePage, cp2: CodePage)
    requires cp1 != cp2
    ensures Selector(Name(cp1)) != Selector(Name(cp2))
  {
  }

  /** Converting in two pieces writes the same as converting at once. */
  lemma {:induction false} TranscodeAppend(sel: char, a: seq<Byte>, b: seq<Byte>)
    ensures Transcode(sel, a + b) == Transcode(sel, a) + Transcode(sel, b)
  {
    var lhs, rhs := Transcode(sel, a + b), Transcode(sel, a) + Transcode(sel, b);
    forall i | 0 <= i < |a + b|
      ensures lhs[i] == rhs[i]
    {
      if i < |a| {
        assert (a + b)[i] == a[i];
      } else {
        assert (a + b)[i] == b[i - |a|];
      }
    }
  }

  /** After k bytes the output is exactly the conversion of the first k bytes. */
  lemma TranscodePrefix(sel: char, input: seq<Byte>, k: nat)
    requires k <= |input|
    ensures Transcode(sel, input[..k]) == Transcode(sel, input)[..k]
  {
    TranscodeAppend(sel, input[..k], input[k..]);
    assert input[..k] + input[k..] == input;
  }

  /** All-ASCII input is written back unchanged under every selector. */
  lemma TranscodeAscii(sel: char, input: seq<Byte>)
    requires forall i :: 0 <= i < |input| ==> input[i] < 128
    ensures Transcode(sel, input) == input
  {
    var out := Transcode(sel, input);
    forall i | 0 <= i < |input|
      ensures out[i] == input[i]
    {
      match sel {
        case 'k' => IdentityDefault(Koi8R, input[i]);
        case 'i' => IdentityDefault(Iso8859_5, input[i]);
        case 'c' => IdentityDefault(Cp1251, input[i]);
        case _ =>
      }
    }
  }

  /** Each written codepoint is its byte or lies in U+0401..U+0451. */
  lemma TranscodeRange(sel: char, input: seq<Byte>, i: nat)
    requires i < |input|
    ensures var w := Transcode(sel, input)[i];
      w == input[i] || CapitalYo <= w <= SmallYo
  {
    match sel {
      case 'k' => MapRange(Koi8R, input[i]);
      case 'i' => MapRange(Iso8859_5, input[i]);
      case 'c' => MapRange(Cp1251, input[i]);
      case _ =>
    }
  }

  /** Encoding a codepoint sequence back into page cp, failing at the first codepoint it cannot hold. */
  function UnmapAll(cp: CodePage, text: seq<int>): (r: Option<seq<Byte>>)
    ensures r.Some? ==> |r.value| == |text|
  {
    if text == [] then Some([])
    else match (UnmapAll(cp, text[..|text| - 1]), Unmap(cp, text[|text| - 1]))
      case (Some(init), Some(last)) => Some(init + [last])
      case _ => None
  }

  /** The conversion loses nothing: encoding its output back gives the input. */
  lemma {:induction false} TranscodeLossless(cp: CodePage, input: seq<Byte>)
    ensures UnmapAll(cp, Transcode(Selector(Name(cp)), input)) == Some(input)
  {
    if input != [] {
      var sel, n := Selector(Name(cp)), |input|;
      var out := Transcode(sel, input);
      TranscodeLossless(cp, input[..n - 1]);
      assert out[..n - 1] == Transcode(sel, input[..n - 1]);
      SwitchSelectsPage(cp, input[n - 1]);
      MapRoundTrip(cp, input[n - 1]);
      assert input[..n - 1] + [input[n - 1]] == input;
    }
  }
}
