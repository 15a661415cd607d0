/**
 * Choosing the code page in conv.c: toLower, the name check and the
 * canonicalisation of the -c argument, and the part of parseArgs that
 * fills the runArgs record from the options getopt returns.
 *
 * Options are parsed before convertIt calls setlocale, so tolower runs in
 * the "C" locale, where it changes 'A'..'Z' only.
 */
module Args {
  import opened Wrappers
  import opened CodePages

  // ------------------------------------------------------------- toLower

  function LowerChar(c: char): char
  {
    if 'A' <= c <= 'Z' then (c as int + 32) as char else c
  }

  function Lower(s: string): string
  {
    seq(|s|, i requires 0 <= i < |s| => LowerChar(s[i]))
  }

  /** The length of the C string held in a buffer: the index of its first NUL. */
  function CLength(buf: seq<char>): (n: nat)
    requires '\0' in buf
    ensures n < |buf| && buf[n] == '\0'
    ensures forall i :: 0 <= i < n ==> buf[i] != '\0'
  {
    if buf[0] == '\0' then 0 else 1 + CLength(buf[1..])
  }

  /** A buffer after toLower: the characters before the first NUL lowered, the rest untouched. */
  function LowerCString(buf: seq<char>): seq<char>
    requires '\0' in buf
  {
    var n := CLength(buf);
    Lower(buf[..n]) + buf[n..]
  }

  /** toLower: rewrite the string in place, one character at a time up to its NUL. */
  method ToLower(str: array<char>)
    requires '\0' in str[..]
    modifies str
    ensures str[..] == LowerCString(old(str[..]))
  {
    ghost var s := str[..];
    ghost var n := CLength(s);
    var p := 0;
    while str[p] != '\0'
      invariant 0 <= p <= n
      invariant forall i :: 0 <= i < p ==> str[i] == LowerChar(s[i])
      invariant forall i :: p <= i < str.Length ==> str[i] == s[i]
      decreases n - p
    {
      str[p] := LowerChar(str[p]);
      p := p + 1;
    }
    assert str[..] == Lower(s[..n]) + s[n..];
  }

  /** toLower keeps the length and the NUL, and changes only 'A'..'Z' before the NUL. */
  lemma LowerCStringChanges(buf: seq<char>)
    requires '\0' in buf
    ensures |LowerCString(buf)| == |buf|
    ensures '\0' in LowerCString(buf) && CLength(LowerCString(buf)) == CLength(buf)
    ensures forall i :: 0 <= i < |buf| && LowerCString(buf)[i] != buf[i] ==>
      i < CLength(buf) && 'A' <= buf[i] <= 'Z' && LowerCString(buf)[i] as int == buf[i] as int + 32
  {
    var r, n := LowerCString(buf), CLength(buf);
    assert r[n] == '\0';
    CLengthUnique(r, n);
  }

  /** The first NUL of a buffer is the only NUL before which there is none. */
  lemma {:induction false} CLengthUnique(buf: seq<char>, n: nat)
    requires n < |buf| && buf[n] == '\0'
    requires forall i :: 0 <= i < n ==> buf[i] != '\0'
    ensures CLength(buf) == n
  {
    if n > 0 {
      CLengthUnique(buf[1..], n - 1);
    }
  }

  /** toLower may be applied any number of times: the calls after the first change nothing. */
  lemma LowerIdempotent(s: string)
    ensures Lower(Lower(s)) == Lower(s)
  {
  }

  // ------------------------------------------------------ the name check

  /**
   * The check on the -c argument: accepted when its lower-case form is one
   * of the three canonical names, which then selects the page.
   */
  function SelectCodePage(name: string): Option<CodePage>
  {
    var lowered := Lower(name);
    if lowered != KOI && lowered != WIN && lowered != ISO then None
    else if lowered == KOI then Some(Koi8R)
    else if lowered == WIN then Some(Cp1251)
    else Some(Iso8859_5)
  }

  /** A name selects a page exactly when its lower-case form is that page's name. */
  lemma SelectIff(name: string, cp: CodePage)
    ensures SelectCodePage(name) == Some(cp) <==> Lower(name) == Name(cp)
  {
    assert KOI[0] != WIN[0] && KOI[0] != ISO[0] && WIN[0] != ISO[0];
  }

  /** The three comparisons of the check, and the canonical name stored when one of them succeeds. */
  lemma CheckCanonical(name: string)
    ensures var lowered := Lower(name);
      (lowered != KOI && lowered != WIN && lowered != ISO) <==> SelectCodePage(name).None?
    ensures var lowered := Lower(name);
      SelectCodePage(name).Some? ==>
        Name(SelectCodePage(name).value) == if lowered == KOI then KOI else if lowered == WIN then WIN else ISO
  {
  }

  /** A name is rejected exactly when its lower-case form is none of the three names. */
  lemma SelectRejects(name: string)
    ensures SelectCodePage(name) == None <==> forall cp: CodePage :: Lower(name) != Name(cp)
  {
    if SelectCodePage(name) == None {
      forall cp: CodePage
        ensures Lower(name) != Name(cp)
      {
      }
    } else {
      SelectIff(name, SelectCodePage(name).value);
    }
  }

  /** The check ignores case. */
  lemma SelectIgnoresCase(name: string)
    ensures SelectCodePage(Lower(name)) == SelectCodePage(name)
  {
    LowerIdempotent(name);
  }

  lemma SelectExamples()
    ensures SelectCodePage("KOI8-R") == Some(Koi8R)
    ensures SelectCodePage("Cp-1251") == Some(Cp1251)
    ensures SelectCodePage("ISO8859-5") == Some(Iso8859_5)
    ensures SelectCodePage("koi8r") == None
    ensures SelectCodePage("iso-8859-5") == None
  {
    assert Lower("KOI8-R") == KOI;
    assert Lower("Cp-1251") == WIN;
    assert Lower("ISO8859-5") == ISO;
    assert Lower("koi8r") == "koi8r";
    assert Lower("iso-8859-5") == "iso-8859-5";
  }

  // ---------------------------------------------------------- parseArgs

  /** One result of getopt: the option character and its optarg. */
  datatype Opt = Opt(letter: char, arg: string)

  /** Why parseArgs ends the process instead of returning. */
  datatype Stop =
    | NoArguments               // argc == 1
    | UnknownCodePage(name: string)  // the -c argument, as lowered in place
    | HelpRequested             // -h
    | BadOption                 // anything getopt reports as unknown or missing its argument
    | NotEnoughParams           // -c, -i or -o never given

  datatype ParseOutcome = Proceed | Exit(why: Stop)

  /** An option the loop accepts and goes on past. */
  predicate Passes(o: Opt)
  {
    o.letter == 'i' || o.letter == 'o' || (o.letter == 'c' && SelectCodePage(o.arg).Some?)
  }

  function StopFor(o: Opt): Stop
    requires !Passes(o)
  {
    if o.letter == 'c' then UnknownCodePage(Lower(o.arg))
    else if o.letter == 'h' then HelpRequested
    else BadOption
  }

  /** The index of the first option the loop stops at, or |opts| when it passes them all. */
  function FirstStop(opts: seq<Opt>): (k: nat)
    ensures k <= |opts|
    ensures forall i :: 0 <= i < k ==> Passes(opts[i])
    ensures k < |opts| ==> !Passes(opts[k])
  {
    if opts == [] || !Passes(opts[0]) then 0 else 1 + FirstStop(opts[1..])
  }

  /** The argument of the last option with this letter. */
  function LastArg(opts: seq<Opt>, letter: char): (r: Option<string>)
    ensures r.Some? ==>
      exists i :: 0 <= i < |opts| && opts[i] == Opt(letter, r.value) &&
        forall j :: i < j < |opts| ==> opts[j].letter != letter
    ensures r.None? ==> forall i :: 0 <= i < |opts| ==> opts[i].letter != letter
  {
    if opts == [] then None
    else if opts[|opts| - 1].letter == letter then Some(opts[|opts| - 1].arg)
    else LastArg(opts[..|opts| - 1], letter)
  }

  /** The name the codePage field holds after a run of accepted options: that of the page the last -c selects. */
  function StoredCodePage(opts: seq<Opt>): (r: Option<string>)
    requires forall i :: 0 <= i < |opts| ==> Passes(opts[i])
    ensures LastArg(opts, 'c').None? ==> r.None?
    ensures LastArg(opts, 'c').Some? ==>
      SelectCodePage(LastArg(opts, 'c').value).Some? &&
      r == Some(Name(SelectCodePage(LastArg(opts, 'c').value).value))
  {
    if opts == [] then None
    else
      var o := opts[|opts| - 1];
      assert Passes(o);
      if o.letter == 'c' then Some(Name(SelectCodePage(o.arg).value))
      else StoredCodePage(opts[..|opts| - 1])
  }

  /** The loop stops at k when everything before k passes and the option at k does not. */
  lemma FirstStopAt(opts: seq<Opt>, k: nat)
    requires k < |opts| && !Passes(opts[k])
    requires forall i :: 0 <= i < k ==> Passes(opts[i])
    ensures FirstStop(opts) == k
  {
  }

  /** What one more accepted option does to the remembered arguments. */
  lemma PrefixStep(opts: seq<Opt>, k: nat)
    requires k < |opts|
    requires forall i :: 0 <= i <= k ==> Passes(opts[i])
    ensures forall letter ::
              LastArg(opts[..k + 1], letter) ==
              if opts[k].letter == letter then Some(opts[k].arg) else LastArg(opts[..k], letter)
    ensures StoredCodePage(opts[..k + 1]) ==
      (if opts[k].letter == 'c' then Some(Name(SelectCodePage(opts[k].arg).value))
       else StoredCodePage(opts[..k]))
  {
    var next := opts[..k + 1];
    assert |next| == k + 1 && next[..k] == opts[..k] && next[k] == opts[k];
    forall letter: char
      ensures LastArg(next, letter) ==
              if opts[k].letter == letter then Some(opts[k].arg) else LastArg(opts[..k], letter)
    {
    }
  }

  /** The runArgs record: NULL fields are None. The FILE handles are not part of this model. */
  class RunArgs {
    var codePage: Option<string>
    var inFileName: Option<string>
    var outFileName: Option<string>

    constructor ()
      ensures codePage.None? && inFileName.None? && outFileName.None?
    {
      codePage, inFileName, outFileName := None, None, None;
    }

    /**
     * parseArgs, given argc and the options getopt returns in order.  The
     * fields are set from the options before the one it stops at; the
     * outcome says whether it returns or why it ends the process.
     */
    method ParseArgs(argc: int, opts: seq<Opt>) returns (outcome: ParseOutcome)
      requires codePage.None? && inFileName.None? && outFileName.None?
      modifies this
      ensures var done := if argc == 1 then [] else opts[..FirstStop(opts)];
        codePage == StoredCodePage(done) &&
        inFileName == LastArg(done, 'i') && outFileName == LastArg(done, 'o')
      ensures outcome ==
        if argc == 1 then Exit(NoArguments)
        else if FirstStop(opts) < |opts| then Exit(StopFor(opts[FirstStop(opts)]))
        else if codePage.None? || inFileName.None? || outFileName.None? then Exit(NotEnoughParams)
        else Proceed
      ensures outcome == Proceed ==> exists cp: CodePage :: codePage == Some(Name(cp))
    {
      if argc == 1 {
        assert opts[..0] == [];
        return Exit(NoArguments);
      }
      var k := 0;
      while k < |opts|
        invariant 0 <= k <= |opts|
        invariant forall i :: 0 <= i < k ==> Passes(opts[i])
        invariant codePage == StoredCodePage(opts[..k])
        invariant inFileName == LastArg(opts[..k], 'i') && outFileName == LastArg(opts[..k], 'o')
      {
        var o := opts[k];
        match o.letter {
          case 'c' =>
            var lowered := Lower(o.arg);
            CheckCanonical(o.arg);
            if lowered != KOI && lowered != WIN && lowered != ISO {
              FirstStopAt(opts, k);
              return Exit(UnknownCodePage(lowered));
            }
            codePage := Some(if lowered == KOI then KOI else if lowered == WIN then WIN else ISO);
          case 'i' =>
            inFileName := Some(o.arg);
          case 'o' =>
            outFileName := Some(o.arg);
          case 'h' =>
            FirstStopAt(opts, k);
            return Exit(HelpRequested);
          case _ =>
            FirstStopAt(opts, k);
            return Exit(BadOption);
        }
        PrefixStep(opts, k);
        k := k + 1;
      }
      assert opts[..k] == opts;
      if codePage.None? || inFileName.None? || outFileName.None? {
        return Exit(NotEnoughParams);
      }
      outcome := Proceed;
      var cp := SelectCodePage(LastArg(opts, 'c').value).value;
      assert codePage == Some(Name(cp));
    }
  }
}
