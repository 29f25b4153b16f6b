/** The text form of retained terrain: whitespace-separated words, numbers in decimal. */
module MinimapFile {
  import opened World
  import opened Routes
  import opened Ordering

  const CELL_LIMIT := 1_000_000
  const TEXT_LIMIT := 32 * 1024 * 1024
  const FIRST_TYPE := 100
  const TYPE_LIMIT := 0xFF00
  const MAGIC_1 := "REAL33D_MINIMAP_1"
  const MAGIC_2 := "REAL33D_MINIMAP_2"

  datatype Terrain = Terrain(groundType: word, staticObstacle: bool, colorType: word)

  datatype Cell = Cell(position: MapPosition, terrain: Terrain)

  type Land = map<MapPosition, Terrain>

  lemma BeforeIsTotal()
    ensures TotalOrder(Before)
  {
  }

  function Keys(land: Land): (keys: seq<MapPosition>)
    ensures |keys| == |land| && forall p :: p in keys <==> p in land
    ensures forall i, j :: 0 <= i < j < |keys| ==> Before(keys[i], keys[j])
  {
    BeforeIsTotal();
    Ordered(land.Keys, Before)
  }

  // ---- decimal numbers ------------------------------------------------------------------

  function Decimal(n: nat): (s: string)
    ensures IsWord(s)
  {
    if n < 10 then [('0' as int + n) as char] else Decimal(n / 10) + [('0' as int + n % 10) as char]
  }

  function Number(s: string): Option<nat> {
    if s == "" || !('0' <= s[|s| - 1] <= '9') then None
    else
      var digit := s[|s| - 1] as int - '0' as int;
      if |s| == 1 then Some(digit)
      else
        match Number(s[..|s| - 1])
        case None => None
        case Some(front) => Some(10 * front + digit)
  }

  lemma {:induction false} NumberOfDecimal(n: nat)
    ensures Number(Decimal(n)) == Some(n)
  {
    if n >= 10 {
      NumberOfDecimal(n / 10);
      var s := Decimal(n);
      assert s[..|s| - 1] == Decimal(n / 10);
    }
  }

  function Power(k: nat): nat {
    if k == 0 then 1 else 10 * Power(k - 1)
  }

  lemma {:induction false} DecimalDigits(n: nat, k: nat)
    requires k >= 1 && n < Power(k)
    ensures |Decimal(n)| <= k
  {
    if n >= 10 { DecimalDigits(n / 10, k - 1); }
  }

  lemma DecimalLength(n: nat)
    ensures n <= 65535 ==> |Decimal(n)| <= 5
    ensures n <= CELL_LIMIT ==> |Decimal(n)| <= 7
    ensures n <= 15 ==> |Decimal(n)| <= 2
  {
    hide Decimal;
    assert Power(2) == 100;
    assert Power(3) == 1_000;
    assert Power(5) == 10 * Power(4) == 100_000;
    assert Power(7) == 10 * Power(6) == 10_000_000;
    if n <= 15 { DecimalDigits(n, 2); }
    if n <= 65535 { DecimalDigits(n, 5); }
    if n <= CELL_LIMIT { DecimalDigits(n, 7); }
  }

  // ---- words and gaps ---------------------------------------------------------------------

  predicate IsSpace(c: char) {
    c == ' ' || 9 as char <= c <= 13 as char
  }

  predicate IsWord(s: string) {
    s != "" && forall i :: 0 <= i < |s| ==> !IsSpace(s[i])
  }

  function Gap(s: string): (n: nat)
    ensures n <= |s| && (n < |s| ==> !IsSpace(s[n]))
  {
    if s == "" || !IsSpace(s[0]) then 0 else 1 + Gap(s[1..])
  }

  function Letters(s: string): (n: nat)
    ensures n <= |s| && (n < |s| ==> IsSpace(s[n])) && forall i :: 0 <= i < n ==> !IsSpace(s[i])
  {
    if s == "" || IsSpace(s[0]) then 0 else 1 + Letters(s[1..])
  }

  /** What formatted extraction sees of a text. */
  function Words(s: string): (words: seq<string>)
    ensures forall i :: 0 <= i < |words| ==> IsWord(words[i])
    decreases |s|
  {
    var rest := s[Gap(s)..];
    if rest == "" then [] else [rest[..Letters(rest)]] + Words(rest[Letters(rest)..])
  }

  datatype Piece = Piece(word: string, gap: char)

  function Print(pieces: seq<Piece>): string {
    if pieces == [] then "" else pieces[0].word + [pieces[0].gap] + Print(pieces[1..])
  }

  predicate GoodPieces(pieces: seq<Piece>) {
    forall i :: 0 <= i < |pieces| ==> IsWord(pieces[i].word) && IsSpace(pieces[i].gap)
  }

  function WordsIn(pieces: seq<Piece>): (words: seq<string>)
    ensures |words| == |pieces|
  {
    seq(|pieces|, i requires 0 <= i < |pieces| => pieces[i].word)
  }

  lemma {:induction false} LettersOfWord(word: string, rest: string)
    requires forall i :: 0 <= i < |word| ==> !IsSpace(word[i])
    requires rest != "" && IsSpace(rest[0])
    ensures Letters(word + rest) == |word|
    decreases |word|
  {
    if word == "" {
      assert word + rest == rest;
    } else {
      LettersOfWord(word[1..], rest);
      assert (word + rest)[1..] == word[1..] + rest;
    }
  }

  lemma SpaceIsSkipped(gap: char, rest: string)
    requires IsSpace(gap)
    ensures Words([gap] + rest) == Words(rest)
  {
    var s := [gap] + rest;
    assert s[1..] == rest;
    assert s[Gap(s)..] == rest[Gap(rest)..];
  }

  lemma WordThenSpace(word: string, tail: string)
    requires IsWord(word) && tail != "" && IsSpace(tail[0])
    ensures Words(word + tail) == [word] + Words(tail)
  {
    hide IsSpace, Letters;
    var s := word + tail;
    LettersOfWord(word, tail);
    assert s[0] == word[0] && Gap(s) == 0;
    assert s[0..] == s;
    assert s[..|word|] == word && s[|word|..] == tail;
  }

  lemma {:induction false} WordsOfPrint(pieces: seq<Piece>)
    requires GoodPieces(pieces)
    ensures Words(Print(pieces)) == WordsIn(pieces)
    decreases |pieces|
  {
    hide Words, IsWord, IsSpace;
    if pieces == [] {
      NoWords();
    } else {
      var word, gap, rest := pieces[0].word, pieces[0].gap, Print(pieces[1..]);
      WordsOfPrint(pieces[1..]);
      SpaceIsSkipped(gap, rest);
      WordThenSpace(word, [gap] + rest);
      assert Print(pieces) == word + ([gap] + rest);
      assert WordsIn(pieces) == [word] + WordsIn(pieces[1..]);
    }
  }

  lemma NoWords()
    ensures Words("") == []
  {
  }

  // ---- the file ---------------------------------------------------------------------------

  function CellPieces(p: MapPosition, t: Terrain): (pieces: seq<Piece>)
    requires p.x >= 0 && p.y >= 0 && p.z >= 0
    ensures |pieces| == 6
  {
    [Piece(Decimal(p.x), ' '), Piece(Decimal(p.y), ' '), Piece(Decimal(p.z), ' '),
     Piece(Decimal(t.groundType), ' '), Piece(Decimal(Flag(t.staticObstacle)), ' '), Piece(Decimal(t.colorType), '\n')]
  }

  predicate GoodType(t: nat) {
    t < TYPE_LIMIT && (t == 0 || t >= FIRST_TYPE)
  }

  /** The cell whose words start at `at`. A version 1 file has no colour column. */
  function ReadCell(words: seq<string>, at: nat, colours: bool): Option<Cell>
    requires at + (if colours then 6 else 5) <= |words|
  {
    var x, y, z := Number(words[at]), Number(words[at + 1]), Number(words[at + 2]);
    var ground, obstacle := Number(words[at + 3]), Number(words[at + 4]);
    var colour := if colours then Number(words[at + 5]) else Some(0);
    if x == None || y == None || z == None || ground == None || obstacle == None || colour == None then None
    else
      var p := MapPosition(x.value, y.value, z.value);
      if !ValidPosition(p) || !GoodType(ground.value) || obstacle.value > 1 || !GoodType(colour.value) then None
      else Some(Cell(p, Terrain(ground.value, obstacle.value != 0, colour.value)))
  }

  function ReadCells(words: seq<string>, at: nat, count: nat, colours: bool, parsed: Land): Option<(Land, nat)>
    decreases count
  {
    var width := if colours then 6 else 5;
    if count == 0 then Some((parsed, at))
    else if at + width > |words| then None
    else
      match ReadCell(words, at, colours)
      case None => None
      case Some(cell) =>
        if cell.position in parsed then None
        else ReadCells(words, at + width, count - 1, colours, parsed[cell.position := cell.terrain])
  }

  /** The terrain a text holds for `scope`; `None` when it is refused. */
  function Loaded(text: string, scope: string): Option<Land> {
    if |text| > TEXT_LIMIT || scope == "" then None else LoadedWords(Words(text), scope)
  }

  function LoadedWords(words: seq<string>, scope: string): Option<Land> {
    if |words| < 3 || Number(words[2]) == None then None
    else if (words[0] != MAGIC_1 && words[0] != MAGIC_2) || words[1] != scope
      || Number(words[2]).value > CELL_LIMIT then None
    else
      match ReadCells(words, 3, Number(words[2]).value, words[0] == MAGIC_2, map[])
      case None => None
      case Some((parsed, at)) => if at == |words| then Some(parsed) else None
  }

  predicate Placed(land: Land) {
    forall p :: p in land ==> p.x >= 0 && p.y >= 0 && p.z >= 0
  }

  function LandPieces(keys: seq<MapPosition>, land: Land): seq<Piece>
    requires Placed(land) && forall i :: 0 <= i < |keys| ==> keys[i] in land
  {
    if keys == [] then [] else CellPieces(keys[0], land[keys[0]]) + LandPieces(keys[1..], land)
  }

  function Header(scope: string, count: nat): seq<Piece> {
    [Piece(MAGIC_2, ' '), Piece(scope, ' '), Piece(Decimal(count), '\n')]
  }

  function Saved(land: Land, scope: string): string
    requires Placed(land)
  {
    Print(Header(scope, |land|) + LandPieces(Keys(land), land))
  }

  // ---- loading undoes saving -----------------------------------------------------------------

  /** Terrain that the file format can hold. */
  predicate StorableCell(p: MapPosition, t: Terrain) {
    ValidPosition(p) && GoodType(t.groundType) && GoodType(t.colorType)
  }

  predicate Storable(land: Land) {
    forall p :: p in land ==> StorableCell(p, land[p])
  }

  lemma ReadCellOfPieces(p: MapPosition, t: Terrain, words: seq<string>, at: nat)
    requires p.x >= 0 && p.y >= 0 && p.z >= 0
    requires at + 6 <= |words| && words[at..at + 6] == WordsIn(CellPieces(p, t))
    ensures ReadCell(words, at, true) == if StorableCell(p, t) then Some(Cell(p, t)) else None
  {
    hide Decimal, Number;
    var six := WordsIn(CellPieces(p, t));
    assert forall i :: 0 <= i < 6 ==> words[at + i] == six[i];
    NumberOfDecimal(p.x);
    NumberOfDecimal(p.y);
    NumberOfDecimal(p.z);
    NumberOfDecimal(t.groundType);
    NumberOfDecimal(Flag(t.staticObstacle));
    NumberOfDecimal(t.colorType);
    assert words[at] == six[0] && words[at + 1] == six[1] && words[at + 2] == six[2];
    assert words[at + 3] == six[3] && words[at + 4] == six[4] && words[at + 5] == six[5];
  }

  predicate AllStorable(keys: seq<MapPosition>, land: Land)
    requires forall i :: 0 <= i < |keys| ==> keys[i] in land
  {
    keys == [] || (StorableCell(keys[0], land[keys[0]]) && AllStorable(keys[1..], land))
  }

  /** `parsed` with the cells of `keys` added. */
  function Joined(parsed: Land, keys: seq<MapPosition>, land: Land): Land
    requires forall i :: 0 <= i < |keys| ==> keys[i] in land
    decreases |keys|
  {
    if keys == [] then parsed else Joined(parsed[keys[0] := land[keys[0]]], keys[1..], land)
  }

  lemma {:induction false} JoinedHas(parsed: Land, keys: seq<MapPosition>, land: Land, p: MapPosition)
    requires forall i :: 0 <= i < |keys| ==> keys[i] in land
    ensures p in Joined(parsed, keys, land) <==> p in parsed || p in keys
    ensures p in keys ==> Joined(parsed, keys, land)[p] == land[p]
    ensures p in parsed && p !in keys ==> Joined(parsed, keys, land)[p] == parsed[p]
    decreases |keys|
  {
    if keys != [] {
      JoinedHas(parsed[keys[0] := land[keys[0]]], keys[1..], land, p);
      assert p in keys <==> p == keys[0] || p in keys[1..];
    }
  }

  lemma {:induction false} AllStorableMeans(keys: seq<MapPosition>, land: Land)
    requires forall i :: 0 <= i < |keys| ==> keys[i] in land
    ensures AllStorable(keys, land) <==> forall i :: 0 <= i < |keys| ==> StorableCell(keys[i], land[keys[i]])
    decreases |keys|
  {
    hide StorableCell;
    if keys != [] {
      AllStorableMeans(keys[1..], land);
      var tail := keys[1..];
      if forall i :: 0 <= i < |tail| ==> StorableCell(tail[i], land[tail[i]]) {
        if StorableCell(keys[0], land[keys[0]]) {
          forall i | 0 <= i < |keys| ensures StorableCell(keys[i], land[keys[i]]) {
            if i > 0 { assert tail[i - 1] == keys[i]; }
          }
        }
      } else {
        var i :| 0 <= i < |tail| && !StorableCell(tail[i], land[tail[i]]);
        assert keys[i + 1] == tail[i];
      }
    }
  }

  lemma SplitWords(words: seq<string>, at: nat, cell: seq<Piece>, rest: seq<Piece>)
    requires at <= |words| && |cell| == 6 && words[at..] == WordsIn(cell + rest)
    ensures at + 6 <= |words| && words[at..at + 6] == WordsIn(cell) && words[at + 6..] == WordsIn(rest)
  {
    var all := WordsIn(cell + rest);
    assert all[..6] == WordsIn(cell) && all[6..] == WordsIn(rest);
    assert words[at..][..6] == words[at..at + 6] && words[at..][6..] == words[at + 6..];
  }

  lemma {:induction false} ReadCellsOfPieces(
      keys: seq<MapPosition>, land: Land, words: seq<string>, at: nat, parsed: Land)
    requires Placed(land) && forall i :: 0 <= i < |keys| ==> keys[i] in land
    requires forall i, j :: 0 <= i < j < |keys| ==> keys[i] != keys[j]
    requires forall i :: 0 <= i < |keys| ==> keys[i] !in parsed
    requires at <= |words| && words[at..] == WordsIn(LandPieces(keys, land))
    ensures ReadCells(words, at, |keys|, true, parsed)
      == if AllStorable(keys, land) then Some((Joined(parsed, keys, land), |words|)) else None
    decreases |keys|
  {
    hide CellPieces, ReadCell, StorableCell, WordsIn;
    if keys == [] {
      assert |words[at..]| == 0;
    } else {
      var rest := LandPieces(keys[1..], land);
      SplitWords(words, at, CellPieces(keys[0], land[keys[0]]), rest);
      ReadCellOfPieces(keys[0], land[keys[0]], words, at);
      if StorableCell(keys[0], land[keys[0]]) {
        ReadCellsOfPieces(keys[1..], land, words, at + 6, parsed[keys[0] := land[keys[0]]]);
      }
    }
  }

  lemma {:induction false} LandPiecesGood(keys: seq<MapPosition>, land: Land)
    requires Placed(land) && forall i :: 0 <= i < |keys| ==> keys[i] in land
    ensures GoodPieces(LandPieces(keys, land))
    decreases |keys|
  {
    if keys != [] { LandPiecesGood(keys[1..], land); }
  }

  lemma HeaderGood(scope: string, count: nat)
    requires IsWord(scope)
    ensures GoodPieces(Header(scope, count))
  {
    MagicIsWord();
  }

  lemma GoodJoin(a: seq<Piece>, b: seq<Piece>)
    requires GoodPieces(a) && GoodPieces(b)
    ensures GoodPieces(a + b) && WordsIn(a + b) == WordsIn(a) + WordsIn(b)
  {
    hide IsWord, IsSpace;
  }

  lemma SavedWords(land: Land, scope: string)
    requires Placed(land) && IsWord(scope)
    ensures var words := Words(Saved(land, scope));
      |words| >= 3 && words[0] == MAGIC_2 && words[1] == scope && words[2] == Decimal(|land|)
      && words[3..] == WordsIn(LandPieces(Keys(land), land))
  {
    hide Decimal, Words, Print, LandPieces, IsWord, GoodPieces, Placed;
    var keys := Keys(land);
    assert forall i :: 0 <= i < |keys| ==> keys[i] in keys;
    var header := Header(scope, |land|);
    var cells := LandPieces(keys, land);
    LandPiecesGood(keys, land);
    HeaderGood(scope, |land|);
    GoodJoin(header, cells);
    WordsOfPrint(header + cells);
    assert WordsIn(header) == [MAGIC_2, scope, Decimal(|land|)];
  }

  lemma KeysCoverLand(land: Land)
    ensures forall i :: 0 <= i < |Keys(land)| ==> Keys(land)[i] in land
    ensures Joined(map[], Keys(land), land) == land
    ensures AllStorable(Keys(land), land) <==> Storable(land)
  {
    hide Keys, StorableCell, Joined, AllStorable;
    var keys := Keys(land);
    assert forall i :: 0 <= i < |keys| ==> keys[i] in keys;
    forall p ensures p in Joined(map[], keys, land) <==> p in land {
      JoinedHas(map[], keys, land, p);
    }
    forall p | p in land ensures Joined(map[], keys, land)[p] == land[p] {
      JoinedHas(map[], keys, land, p);
    }
    AllStorableMeans(keys, land);
    if AllStorable(keys, land) {
      forall p | p in land ensures StorableCell(p, land[p]) {
        var i :| 0 <= i < |keys| && keys[i] == p;
      }
    }
  }

  /** Loading what was saved, exactly: the same terrain, if the text and the cell count are
      within the limits, the scope is the one saved, and every cell is one the format can hold. */
  lemma LoadUndoesSave(land: Land, scope: string, asked: string)
    requires Placed(land) && IsWord(scope)
    ensures Loaded(Saved(land, scope), asked)
      == if |Saved(land, scope)| <= TEXT_LIMIT && |land| <= CELL_LIMIT && asked == scope && Storable(land)
        then Some(land) else None
  {
    hide Number, Decimal, Words, Saved, LandPieces, Storable, IsWord, ReadCells, Joined, AllStorable, Keys, WordsIn,
      Placed;
    WordsAreNotEmpty(scope);
    SavedWords(land, scope);
    NumberOfDecimal(|land|);
    KeysCoverLand(land);
    DistinctKeys(land);
    ReadCellsOfPieces(Keys(land), land, Words(Saved(land, scope)), 3, map[]);
  }

  lemma WordsAreNotEmpty(s: string)
    requires IsWord(s)
    ensures s != ""
  {
  }

  lemma MagicIsWord()
    ensures IsWord(MAGIC_2)
  {
  }

  lemma DistinctKeys(land: Land)
    ensures forall i, j :: 0 <= i < j < |Keys(land)| ==> Keys(land)[i] != Keys(land)[j]
  {
    var keys := Keys(land);
    forall i, j | 0 <= i < j < |keys| ensures keys[i] != keys[j] {
      assert Before(keys[i], keys[j]);
    }
  }

  /** Nothing can be loaded under a scope that is not a single word. */
  lemma ScopeMustBeAWord(text: string, scope: string)
    requires Loaded(text, scope).Some?
    ensures IsWord(scope)
  {
    hide Words, Number, ReadCells, IsWord;
    assert Words(text)[1] == scope;
  }

  lemma {:induction false} LandLength(keys: seq<MapPosition>, land: Land)
    requires Placed(land) && Storable(land) && forall i :: 0 <= i < |keys| ==> keys[i] in land
    ensures |Print(LandPieces(keys, land))| <= 29 * |keys|
    decreases |keys|
  {
    hide Decimal;
    if keys != [] {
      var p, t := keys[0], land[keys[0]];
      assert StorableCell(p, t);
      LandLength(keys[1..], land);
      PrintJoins(CellPieces(p, t), LandPieces(keys[1..], land));
      CellLength(p, t);
    }
  }

  lemma CellLength(p: MapPosition, t: Terrain)
    requires StorableCell(p, t)
    ensures |Print(CellPieces(p, t))| <= 29
  {
    hide Decimal;
    DecimalLength(p.x);
    DecimalLength(p.y);
    DecimalLength(p.z);
    DecimalLength(t.groundType);
    assert |Decimal(Flag(t.staticObstacle))| <= 1 by { FlagLength(t.staticObstacle); }
    DecimalLength(t.colorType);
    var s := CellPieces(p, t);
    assert |Print(s[5..])| == |s[5].word| + 1;
    assert |Print(s[4..])| == |s[4].word| + 1 + |Print(s[5..])|;
    assert |Print(s[3..])| == |s[3].word| + 1 + |Print(s[4..])|;
    assert |Print(s[2..])| == |s[2].word| + 1 + |Print(s[3..])|;
    assert |Print(s[1..])| == |s[1].word| + 1 + |Print(s[2..])|;
  }

  lemma FlagLength(b: bool)
    ensures |Decimal(Flag(b))| == 1
  {
  }

  lemma {:induction false} PrintJoins(a: seq<Piece>, b: seq<Piece>)
    ensures Print(a + b) == Print(a) + Print(b)
    decreases |a|
  {
    if a == [] {
      assert a + b == b;
    } else {
      PrintJoins(a[1..], b);
      assert (a + b)[1..] == a[1..] + b;
    }
  }

  /** Terrain within the cell limit always fits the text limit, for any scope a caller would use. */
  lemma SavedFits(land: Land, scope: string)
    requires Storable(land) && |land| <= CELL_LIMIT && |scope| <= 4_000_000
    ensures Placed(land) && |Saved(land, scope)| <= TEXT_LIMIT
  {
    hide Decimal, LandPieces;
    assert Placed(land) by { assert forall p :: p in land ==> StorableCell(p, land[p]); }
    var keys := Keys(land);
    assert forall i :: 0 <= i < |keys| ==> keys[i] in keys;
    LandLength(keys, land);
    var header := Header(scope, |land|);
    PrintJoins(header, LandPieces(keys, land));
    DecimalLength(|land|);
    assert |Print(header[2..])| == |header[2].word| + 1;
    assert |Print(header[1..])| == |header[1].word| + 1 + |Print(header[2..])|;
  }

  lemma {:induction false} ReadCellsAreStorable(words: seq<string>, at: nat, count: nat, colours: bool, parsed: Land)
    requires ReadCells(words, at, count, colours, parsed).Some? && Storable(parsed)
    ensures var land := ReadCells(words, at, count, colours, parsed).value.0;
      Storable(land) && |land| == |parsed| + count
    decreases count
  {
    hide Number;
    if count > 0 {
      var cell := ReadCell(words, at, colours).value;
      ReadCellsAreStorable(words, at + (if colours then 6 else 5), count - 1, colours,
        parsed[cell.position := cell.terrain]);
    }
  }

  /** Whatever loads is within the limits. */
  lemma LoadedIsStorable(text: string, scope: string)
    requires Loaded(text, scope).Some?
    ensures Storable(Loaded(text, scope).value) && |Loaded(text, scope).value| <= CELL_LIMIT
  {
    hide Words, Number, ReadCells;
    var words := Words(text);
    ReadCellsAreStorable(words, 3, Number(words[2]).value, words[0] == MAGIC_2, map[]);
  }
}
