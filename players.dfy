/** Players, teams and initials (models/types.go). */
module Players {
  import opened Positions

  /** The ratings the match engine reads, on the source's 0-100 scale.
      dribbling and dribbleAgility stand for Technical.Dribbling.Dribbling
      and Technical.Dribbling.Agility, which the engine reads but the
      shown TechnicalSkill type does not declare. */
  datatype Ratings = Ratings(
    shortPass: int,
    longPass: int,
    cross: int,
    power: int,
    curve: int,
    finishing: int,
    dribbling: int,
    dribbleAgility: int,
    passingVision: int,
    shootingVision: int,
    composure: int,
    agility: int,
    strength: int
  )

  /** PlayerNumber is a plain int: shirt numbers are compared, never computed. */
  datatype Player = Player(name: string, position: Position, number: int, ratings: Ratings)

  /** A team as the engine sees it: its name and its ordered roster.
      Strategy, morale, fitness, chemistry and training are never read by
      the engine. */
  datatype Team = Team(name: string, players: seq<Player>)

  /** unicode.IsSpace, the separator of strings.Fields. */
  predicate IsSpace(c: char) {
    c == ' ' || c == '\t' || c == '\n' || c == '\r' ||
    c == 11 as char || c == 12 as char || c == 0x85 as char || c == 0xA0 as char ||
    c == 0x1680 as char || (0x2000 as char <= c <= 0x200A as char) ||
    c == 0x2028 as char || c == 0x2029 as char || c == 0x202F as char ||
    c == 0x205F as char || c == 0x3000 as char
  }

  /** Every entry is non-empty and free of spaces, as strings.Fields returns them. */
  predicate AllWords(words: seq<string>) {
    forall i :: 0 <= i < |words| ==>
      |words[i]| > 0 && forall j :: 0 <= j < |words[i]| ==> !IsSpace(words[i][j])
  }

  /** Length of the run of non-space characters at the front of s. */
  function WordLength(s: string): (n: nat)
    ensures n <= |s|
    ensures forall i :: 0 <= i < n ==> !IsSpace(s[i])
    ensures n == |s| || IsSpace(s[n])
  {
    if |s| == 0 || IsSpace(s[0]) then 0 else 1 + WordLength(s[1..])
  }

  /** strings.Fields: the maximal runs of non-space characters, in order. */
  function Fields(s: string): (words: seq<string>)
    ensures AllWords(words)
    decreases |s|
  {
    if |s| == 0 then []
    else if IsSpace(s[0]) then Fields(s[1..])
    else
      var n := WordLength(s);
      [s[..n]] + Fields(s[n..])
  }

  /** The words joined by single spaces, the usual shape of a name. */
  function JoinWords(words: seq<string>): string {
    if |words| == 0 then ""
    else if |words| == 1 then words[0]
    else words[0] + " " + JoinWords(words[1..])
  }

  lemma {:induction false} WordLengthOfWord(w: string, rest: string)
    requires forall i :: 0 <= i < |w| ==> !IsSpace(w[i])
    requires |rest| == 0 || IsSpace(rest[0])
    ensures WordLength(w + rest) == |w|
  {
    if |w| > 0 {
      assert (w + rest)[1..] == w[1..] + rest;
      WordLengthOfWord(w[1..], rest);
    }
  }

  /** Splitting a name built from words undoes the joining. */
  lemma {:induction false} FieldsOfJoin(words: seq<string>)
    requires AllWords(words)
    ensures Fields(JoinWords(words)) == words
  {
    if |words| == 1 {
      WordLengthOfWord(words[0], "");
      assert words[0] + "" == words[0];
      assert words[0][|words[0]|..] == "";
    } else if |words| > 1 {
      var w, rest := words[0], JoinWords(words[1..]);
      var s := w + " " + rest;
      assert s == w + (" " + rest);
      WordLengthOfWord(w, " " + rest);
      assert s[..|w|] == w;
      assert s[|w|..] == " " + rest;
      assert (" " + rest)[1..] == rest;
      FieldsOfJoin(words[1..]);
    }
  }

  /** The first byte of the UTF-8 encoding of c: what word[0] reads from
      a word that begins with c. */
  function LeadByte(c: char): (b: int)
    ensures 0 <= b < 0x100
    ensures (c as int) < 0x80 <==> b < 0x80
    ensures (c as int) < 0x80 ==> b == c as int
  {
    var n := c as int;
    if n < 0x80 then n
    else if n < 0x800 then 0xC0 + n / 0x40
    else if n < 0x10000 then 0xE0 + n / 0x1000
    else 0xF0 + n / 0x40000
  }

  /** unicode.ToUpper on the runes U+0000 to U+00FF, the only runes
      string(byte) can produce. */
  function UpperLatin1(b: int): (r: char)
    requires 0 <= b < 0x100
    ensures b < 0x80 <==> (r as int) < 0x80
    ensures 'a' as int <= b <= 'z' as int ==> r as int == b - 32
    ensures b < 0x80 && !('a' as int <= b <= 'z' as int) ==> r as int == b
  {
    if 'a' as int <= b <= 'z' as int then (b - 32) as char
    else if b == 0xB5 then 0x39C as char
    else if 0xE0 <= b <= 0xFE && b != 0xF7 then (b - 32) as char
    else if b == 0xFF then 0x178 as char
    else b as char
  }

  /** strings.ToUpper(string(word[0])): the word's first byte read as a rune
      and upper-cased. */
  function InitialRune(w: string): char
    requires |w| > 0
  {
    UpperLatin1(LeadByte(w[0]))
  }

  /** ASCII upper-casing of one character. */
  function Upper(c: char): char {
    if 'a' <= c <= 'z' then (c as int - 32) as char else c
  }

  /** The number of bytes of c's UTF-8 encoding. */
  function RuneBytes(c: char): nat {
    if (c as int) < 0x80 then 1
    else if (c as int) < 0x800 then 2
    else if (c as int) < 0x10000 then 3
    else 4
  }

  /** len of a Go string: the bytes of its UTF-8 encoding. */
  function ByteLength(s: string): nat {
    if |s| == 0 then 0 else ByteLength(s[..|s| - 1]) + RuneBytes(s[|s| - 1])
  }

  /** The words Initials reads: the first and last of more than two. */
  function Kept(words: seq<string>): seq<string> {
    if |words| > 2 then [words[0], words[|words| - 1]] else words
  }

  /** The initial of every non-empty word, in order. */
  function Heads(words: seq<string>): string {
    if |words| == 0 then ""
    else
      var last := words[|words| - 1];
      Heads(words[..|words| - 1]) + (if |last| > 0 then [InitialRune(last)] else "")
  }

  /** One trailing space when the initials are shorter than two bytes. */
  function Padded(initials: string): string {
    if ByteLength(initials) < 2 then initials + " " else initials
  }

  /** The initials of a list of words. */
  function InitialsOf(words: seq<string>): string {
    Padded(Heads(Kept(words)))
  }

  /** Player.Initials: keep the first and last word when there are more than
      two, upper-case each word's first byte read as a rune, and pad a
      result shorter than two bytes with one space. */
  method Initials(p: Player) returns (initials: string)
    ensures initials == InitialsOf(Fields(p.name))
  {
    var words := Fields(p.name);
    initials := "";
    if |words| > 2 {
      words := [words[0], words[|words| - 1]];
    }
    for i := 0 to |words|
      invariant initials == Heads(words[..i])
    {
      assert words[..i + 1][..i] == words[..i];
      var word := words[i];
      if |word| > 0 {
        initials := initials + [InitialRune(word)];
      }
    }
    assert words[..|words|] == words;
    if ByteLength(initials) < 2 {
      initials := initials + " ";
    }
  }

  /** len of a one- or two-rune string. */
  lemma ByteLengthShort(a: char, b: char)
    ensures ByteLength([a]) == RuneBytes(a)
    ensures ByteLength([a, b]) == RuneBytes(a) + RuneBytes(b)
  {
    assert [a][..0] == [];
    assert [a, b][..1] == [a];
  }

  /** A single word gives its initial, padded only when it is one byte. */
  lemma OneWordInitials(w: string)
    requires |w| > 0
    ensures InitialsOf([w]) == if (InitialRune(w) as int) < 0x80 then [InitialRune(w), ' '] else [InitialRune(w)]
  {
    var r := InitialRune(w);
    assert [w][..0] == [];
    assert Heads([w]) == [r];
    ByteLengthShort(r, ' ');
  }

  /** Two or more words give the initials of the first and last word. */
  lemma ManyWordInitials(words: seq<string>)
    requires |words| >= 2 && |words[0]| > 0 && |words[|words| - 1]| > 0
    ensures InitialsOf(words) == [InitialRune(words[0]), InitialRune(words[|words| - 1])]
  {
    var kept := Kept(words);
    assert |kept| == 2 && kept[0] == words[0] && kept[1] == words[|words| - 1];
    assert kept[..1] == [words[0]] && kept[..1][..0] == [];
    var r1, r2 := InitialRune(words[0]), InitialRune(words[|words| - 1]);
    assert Heads(kept[..1]) == [r1];
    assert Heads(kept) == [r1, r2];
    ByteLengthShort(r1, r2);
  }

  /** What Initials gives, by the number of words: a blank name gives one
      space; one word gives its initial, padded with a space only when that
      initial is a single byte; more words give the initials of the first
      and last word. Only a blank name gives fewer than two bytes. */
  lemma InitialsMeaning(words: seq<string>)
    requires AllWords(words)
    ensures |words| == 0 ==> InitialsOf(words) == " "
    ensures |words| == 1 ==>
              InitialsOf(words) == if (InitialRune(words[0]) as int) < 0x80 then [InitialRune(words[0]), ' ']
                                   else [InitialRune(words[0])]
    ensures |words| >= 2 ==> InitialsOf(words) == [InitialRune(words[0]), InitialRune(words[|words| - 1])]
    ensures ByteLength(InitialsOf(words)) >= 2 <==> |words| > 0
  {
    if |words| == 0 {
      ByteLengthShort(' ', ' ');
    } else if |words| == 1 {
      assert words == [words[0]];
      OneWordInitials(words[0]);
      ByteLengthShort(InitialRune(words[0]), ' ');
    } else {
      ManyWordInitials(words);
      ByteLengthShort(InitialRune(words[0]), InitialRune(words[|words| - 1]));
    }
  }

  /** For words that begin with ASCII characters, the initials are their
      ASCII upper-cased first letters, and they are two characters long
      unless the name is blank. */
  lemma AsciiInitials(words: seq<string>)
    requires AllWords(words)
    requires forall i :: 0 <= i < |words| ==> (words[i][0] as int) < 0x80
    ensures |InitialsOf(words)| == if |words| == 0 then 1 else 2
    ensures |words| >= 1 ==> InitialsOf(words)[0] == Upper(words[0][0])
    ensures |words| >= 2 ==> InitialsOf(words)[1] == Upper(words[|words| - 1][0])
  {
    if |words| == 1 {
      AsciiRune(words[0]);
      assert words == [words[0]];
      OneWordInitials(words[0]);
    } else if |words| >= 2 {
      AsciiRune(words[0]);
      AsciiRune(words[|words| - 1]);
      ManyWordInitials(words);
    }
  }

  /** A word that begins with an ASCII character has that character,
      ASCII upper-cased, as its one-byte initial. */
  lemma AsciiRune(w: string)
    requires |w| > 0 && (w[0] as int) < 0x80
    ensures InitialRune(w) == Upper(w[0]) && (InitialRune(w) as int) < 0x80
  {
    var b := LeadByte(w[0]);
    assert b == w[0] as int;
  }

  /** A name made of words yields the initials of its first and last word. */
  lemma NameInitials(words: seq<string>)
    requires |words| >= 2
    requires AllWords(words)
    ensures InitialsOf(Fields(JoinWords(words))) == [InitialRune(words[0]), InitialRune(words[|words| - 1])]
  {
    FieldsOfJoin(words);
    InitialsMeaning(words);
  }

  /** "Ødegaard" is one word whose initial is U+00C3, the lead byte of
      the encoding of U+00D8. */
  lemma OdegaardWord()
    ensures AllWords(["Ødegaard"]) && InitialRune("Ødegaard") == 'Ã'
  {
    var w := "Ødegaard";
    forall j | 0 <= j < |w| ensures !IsSpace(w[j]) {
      assert w[j] in {'Ø', 'd', 'e', 'g', 'a', 'r'};
    }
  }

  /** "Martin" is one word. */
  lemma MartinWord()
    ensures AllWords(["Martin"]) && InitialRune("Martin") == 'M'
  {
    var w := "Martin";
    forall j | 0 <= j < |w| ensures !IsSpace(w[j]) {
      assert w[j] in {'M', 'a', 'r', 't', 'i', 'n'};
    }
  }

  /** A word that begins with a letter outside ASCII contributes the lead
      byte of its encoding, read as a Latin-1 rune: "Martin Ødegaard"
      gives "MÃ". */
  lemma NonAsciiInitials()
    ensures InitialsOf(Fields(JoinWords(["Martin", "Ødegaard"]))) == ['M', 'Ã']
  {
    OdegaardWord();
    MartinWord();
    var name := ["Martin", "Ødegaard"];
    assert AllWords(name) by {
      assert name[0] == "Martin" && name[1] == "Ødegaard";
    }
    NameInitials(name);
  }

  /** "Ødegaard" alone gives the two-byte "Ã", with no padding. */
  lemma NonAsciiSingleInitial()
    ensures InitialsOf(Fields("Ødegaard")) == ['Ã']
  {
    OdegaardWord();
    var one := ["Ødegaard"];
    FieldsOfJoin(one);
    assert JoinWords(one) == "Ødegaard";
    OneWordInitials("Ødegaard");
  }
}
