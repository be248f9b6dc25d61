/**
 * The spreadsheet side of excel_import.py: reading a vote cell ("6.5", "7",
 * "6*" for a vote without evaluation), the per-row bonus/malus adapter, and
 * the merge of sheet rows into a lineup by player name.
 *
 * Python's `float(...)` is the parameter `parseNumber` (None where `float`
 * raises), and a missing cell (`pd.isna`) is `Cell.Missing`. Player records
 * are dictionaries, modelled as maps from key to value.
 */
module ExcelImport {
  import opened Options
  import opened Text
  import opened Calc

  // ===========================================================================
  // Vote cells
  // ===========================================================================

  /** A spreadsheet cell: missing, or the text `str(cell)` renders. */
  datatype Cell = Missing | Present(text: string)

  const NoEvaluation := "SV"
  const DefaultVote: real := 6.0

  /** The text handed to `float`: the stripped cell with every '*' removed. */
  function NumberText(text: string): string {
    RemoveChar(Strip(text), '*')
  }

  /**
   * parse_voto_excel: (vote, note). A missing cell or a text that does not
   * parse is (6.0, "SV"); an asterisk anywhere marks "SV" but keeps the
   * parsed number; a plain number has the empty note.
   */
  function ParseVote(cell: Cell, parseNumber: string -> Option<real>): (r: (real, string))
    ensures r.1 == "" || r.1 == NoEvaluation
    ensures r.1 == "" <==>
      cell.Present? && '*' !in Strip(cell.text) && parseNumber(Strip(cell.text)).Some?
    ensures cell.Present? && parseNumber(NumberText(cell.text)).Some? ==>
      r.0 == parseNumber(NumberText(cell.text)).value
    ensures cell.Missing? || parseNumber(NumberText(cell.text)).None? ==> r == (DefaultVote, NoEvaluation)
  {
    match cell
    case Missing => (DefaultVote, NoEvaluation)
    case Present(raw) =>
      var s := Strip(raw);
      var (s', note) := if '*' in s then (RemoveChar(s, '*'), NoEvaluation) else (s, "");
      match parseNumber(s')
      case Some(v) => (v, note)
      case None => (DefaultVote, NoEvaluation)
  }

  /** The "6*" convention: the number is kept and the note says no evaluation. */
  lemma StarredVoteExample(parseNumber: string -> Option<real>)
    requires parseNumber("6") == Some(6.0)
    requires parseNumber("6.5") == Some(6.5)
    ensures ParseVote(Present("6*"), parseNumber) == (6.0, NoEvaluation)
    ensures ParseVote(Present(" 6.5 "), parseNumber) == (6.5, "")
    ensures ParseVote(Missing, parseNumber) == (6.0, NoEvaluation)
  {
    StarredText("6*");
    PaddedText(" 6.5 ");
  }

  lemma StarredText(text: string)
    requires text == "6*"
    ensures Strip(text) == text && '*' in text && NumberText(text) == "6"
  {
    TrimmedStripsToItself(text);
    assert text[1..] == "*";
    assert RemoveChar(text[1..], '*') == [];
  }

  lemma PaddedText(text: string)
    requires text == " 6.5 "
    ensures Strip(text) == "6.5" && '*' !in Strip(text) && NumberText(text) == "6.5"
  {
    StripPadded(text, "6.5", 1);
  }

  // ===========================================================================
  // Sheet rows and their bonus/malus
  // ===========================================================================

  /**
   * A row of the imported sheet: the normalised role code, the name, the
   * parsed vote and note, and the nine event counts.
   */
  datatype SheetRow = SheetRow(role: string, name: string, voteBase: real, note: string, events: MatchEvents)

  /** calcola_bonus_malus_excel, as a value: the event rule under the role written in the row. */
  function RowBonus(row: SheetRow): real {
    EventBonus(row.events, RoleOf(row.role))
  }

  /** calcola_bonus_malus_excel: hands the row's counts and the row's own role to the event rule. */
  method ComputeRowBonus(row: SheetRow) returns (bonus: real)
    ensures bonus == EventBonus(row.events, RoleOf(row.role))
  {
    bonus := ComputeEventBonus(row.events, RoleOf(row.role));
  }

  /** Only a sheet row written with role "P" gets the goalkeeper rules. */
  lemma RowBonusKeeperRules(row: SheetRow)
    requires row.events.goalsConceded == 0
    ensures RowBonus(row) == OutfieldBonus(row.events) + (if row.role == "P" then 1.0 else 0.0)
  {
  }

  // ===========================================================================
  // Name index
  // ===========================================================================

  /** The matching key of a name: `name.strip().lower()`. */
  function NameKey(name: string): string {
    LowerAscii(Strip(name))
  }

  /** The dictionary built row by row: a later row with the same key replaces an earlier one. */
  function SheetIndex(rows: seq<SheetRow>): map<string, SheetRow> {
    if rows == [] then map[]
    else
      var last := rows[|rows| - 1];
      SheetIndex(rows[..|rows| - 1])[NameKey(last.name) := last]
  }

  /** The key of every row, in sheet order. */
  function RowKeys(rows: seq<SheetRow>): (keys: seq<string>)
    ensures |keys| == |rows|
  {
    if rows == [] then [] else RowKeys(rows[..|rows| - 1]) + [NameKey(rows[|rows| - 1].name)]
  }

  /** Position of the last `x` in `xs`, or -1 when there is none. */
  function LastIndexOf<T(==)>(xs: seq<T>, x: T): (i: int)
    ensures -1 <= i < |xs|
    ensures i >= 0 ==> xs[i] == x
    ensures forall j :: i < j < |xs| ==> xs[j] != x
  {
    if xs == [] then -1
    else if xs[|xs| - 1] == x then |xs| - 1
    else LastIndexOf(xs[..|xs| - 1], x)
  }

  /** The index holds a key exactly when some row has it, and then maps it to the last such row. */
  lemma {:induction false} SheetIndexLastWins(rows: seq<SheetRow>, key: string)
    ensures key in SheetIndex(rows) <==> LastIndexOf(RowKeys(rows), key) >= 0
    ensures key in SheetIndex(rows) ==> SheetIndex(rows)[key] == rows[LastIndexOf(RowKeys(rows), key)]
  {
    if rows != [] {
      var init := rows[..|rows| - 1];
      SheetIndexLastWins(init, key);
      assert RowKeys(rows) == RowKeys(init) + [NameKey(rows[|rows| - 1].name)];
      assert RowKeys(rows)[..|rows| - 1] == RowKeys(init);
    }
  }

  /** Builds the name-to-row dictionary in one pass over the sheet. */
  method BuildIndex(rows: seq<SheetRow>) returns (index: map<string, SheetRow>)
    ensures index == SheetIndex(rows)
  {
    index := map[];
    for i := 0 to |rows|
      invariant index == SheetIndex(rows[..i])
    {
      assert rows[..i + 1][..i] == rows[..i];
      var row := rows[i];
      index := index[NameKey(row.name) := row];
    }
    assert rows[..|rows|] == rows;
  }

  // ===========================================================================
  // Merging rows into a lineup
  // ===========================================================================

  /** A value stored in a player dictionary. `EventLog(None)` is the empty `{}`. */
  datatype Value = Str(s: string) | Num(x: real) | Flag(b: bool) | EventLog(events: Option<MatchEvents>)

  type Player = map<string, Value>

  /** A lineup entry as the merge needs it: with a textual "nome". */
  predicate HasName(p: Player) {
    "nome" in p && p["nome"].Str?
  }

  /** The keys the merge writes. */
  const MergedKeys: set<string> := {"voto_base", "bonus_malus", "nota", "from_excel", "eventi"}

  /** `giocatore.copy()` with the five merged keys set. */
  function WithMergedFields(p: Player, vote: real, bonus: real, note: string, fromSheet: bool, events: Option<MatchEvents>): (q: Player)
    ensures q.Keys == p.Keys + MergedKeys
    ensures forall k :: k in p && k !in MergedKeys ==> q[k] == p[k]
    ensures q["voto_base"] == Num(vote) && q["bonus_malus"] == Num(bonus) && q["nota"] == Str(note)
    ensures q["from_excel"] == Flag(fromSheet) && q["eventi"] == EventLog(events)
  {
    p["voto_base" := Num(vote)]["bonus_malus" := Num(bonus)]["nota" := Str(note)]
     ["from_excel" := Flag(fromSheet)]["eventi" := EventLog(events)]
  }

  /**
   * One player after the merge: with a row, the row's data; without one,
   * the fallback values or the player unchanged.
   */
  function MergedPlayer(p: Player, found: Option<SheetRow>, useFallback: bool): Player {
    match found
    case Some(row) => WithMergedFields(p, row.voteBase, RowBonus(row), row.note, true, Some(row.events))
    case None =>
      if useFallback then WithMergedFields(p, DefaultVote, 0.0, NoEvaluation, false, None)
      else p
  }

  /**
   * What the merge does to one player. A matched player gets the row's
   * vote, note and events, the bonus of the row's events under the row's
   * role, and from_excel = true; an unmatched one gets 6.0, 0.0, "SV",
   * false and empty events with the fallback, and is left as it is without
   * it. Every other key keeps its value.
   */
  lemma MergedPlayerFields(p: Player, found: Option<SheetRow>, useFallback: bool)
    ensures var q := MergedPlayer(p, found, useFallback);
      forall k :: k in p && k !in MergedKeys ==> k in q && q[k] == p[k]
    ensures found.None? && !useFallback ==> MergedPlayer(p, found, useFallback) == p
    ensures found.Some? || useFallback ==> MergedPlayer(p, found, useFallback).Keys == p.Keys + MergedKeys
    ensures var q := MergedPlayer(p, found, useFallback);
      found.Some? ==>
        q["voto_base"] == Num(found.value.voteBase)
        && q["bonus_malus"] == Num(EventBonus(found.value.events, RoleOf(found.value.role)))
        && q["nota"] == Str(found.value.note)
        && q["from_excel"] == Flag(true)
        && q["eventi"] == EventLog(Some(found.value.events))
    ensures var q := MergedPlayer(p, found, useFallback);
      found.None? && useFallback ==>
        q["voto_base"] == Num(DefaultVote) && q["bonus_malus"] == Num(0.0) && q["nota"] == Str(NoEvaluation)
        && q["from_excel"] == Flag(false) && q["eventi"] == EventLog(None)
  {
  }

  /** The sheet row a player's name selects: the last row with the same key. */
  function RowFor(rows: seq<SheetRow>, p: Player): Option<SheetRow>
    requires HasName(p)
  {
    var i := LastIndexOf(RowKeys(rows), NameKey(p["nome"].s));
    if i >= 0 then Some(rows[i]) else None
  }

  /** Specification of applica_voti_excel_a_formazione: each player merged with the row its name selects. */
  function ApplySheet(rows: seq<SheetRow>, lineup: seq<Player>, useFallback: bool): (r: seq<Player>)
    requires forall p :: p in lineup ==> HasName(p)
    ensures |r| == |lineup|
  {
    if lineup == [] then []
    else
      var init := lineup[..|lineup| - 1];
      var last := lineup[|lineup| - 1];
      assert forall p :: p in init ==> p in lineup;
      ApplySheet(rows, init, useFallback) + [MergedPlayer(last, RowFor(rows, last), useFallback)]
  }

  /** Entry by entry and in the same order, the merged lineup holds each player merged with the row its name selects. */
  lemma {:induction false} ApplySheetAt(rows: seq<SheetRow>, lineup: seq<Player>, useFallback: bool, i: int)
    requires forall p :: p in lineup ==> HasName(p)
    requires 0 <= i < |lineup|
    ensures ApplySheet(rows, lineup, useFallback)[i] == MergedPlayer(lineup[i], RowFor(rows, lineup[i]), useFallback)
  {
    if i < |lineup| - 1 {
      var init := lineup[..|lineup| - 1];
      assert forall p :: p in init ==> p in lineup;
      ApplySheetAt(rows, init, useFallback, i);
    }
  }

  /** Merging one more player of the lineup appends that player's merged copy. */
  lemma ApplySheetStep(rows: seq<SheetRow>, lineup: seq<Player>, useFallback: bool, i: nat)
    requires forall p :: p in lineup ==> HasName(p)
    requires i < |lineup|
    ensures forall p :: p in lineup[..i + 1] ==> HasName(p)
    ensures forall p :: p in lineup[..i] ==> HasName(p)
    ensures ApplySheet(rows, lineup[..i + 1], useFallback)
      == ApplySheet(rows, lineup[..i], useFallback) + [MergedPlayer(lineup[i], RowFor(rows, lineup[i]), useFallback)]
  {
    assert forall p :: p in lineup[..i + 1] ==> p in lineup;
    assert lineup[..i + 1][..i] == lineup[..i];
  }

  /**
   * applica_voti_excel_a_formazione: builds the name index, then appends one
   * merged copy per lineup entry; the input lineup is a value and is left
   * as it was.
   */
  method ApplySheetToLineup(rows: seq<SheetRow>, lineup: seq<Player>, useFallback: bool)
    returns (updated: seq<Player>)
    requires forall p :: p in lineup ==> HasName(p)
    ensures updated == ApplySheet(rows, lineup, useFallback)
  {
    var index := BuildIndex(rows);
    updated := [];
    for i := 0 to |lineup|
      invariant forall p :: p in lineup[..i] ==> HasName(p)
      invariant updated == ApplySheet(rows, lineup[..i], useFallback)
    {
      assert lineup[i] in lineup;
      var merged := MergeEntry(rows, index, lineup[i], useFallback);
      ApplySheetStep(rows, lineup, useFallback, i);
      updated := updated + [merged];
    }
    assert lineup[..|lineup|] == lineup;
  }

  /** The body of the merge loop for one player: look the name up, then copy and update, or fall back. */
  method MergeEntry(rows: seq<SheetRow>, index: map<string, SheetRow>, player: Player, useFallback: bool)
    returns (merged: Player)
    requires index == SheetIndex(rows)
    requires HasName(player)
    ensures merged == MergedPlayer(player, RowFor(rows, player), useFallback)
  {
    var key := NameKey(player["nome"].s);
    SheetIndexLastWins(rows, key);
    if key in index {
      var row := index[key];
      var bonus := ComputeRowBonus(row);
      merged := WithMergedFields(player, row.voteBase, bonus, row.note, true, Some(row.events));
      assert RowFor(rows, player) == Some(row);
    } else if useFallback {
      merged := WithMergedFields(player, DefaultVote, 0.0, NoEvaluation, false, None);
      assert RowFor(rows, player) == None;
    } else {
      merged := player;
      assert RowFor(rows, player) == None;
    }
  }

  /**
   * With the fallback on, every player of the merged lineup carries a vote,
   * a bonus/malus and a note, and its from_excel flag says whether a sheet
   * row matched it.
   */
  lemma FallbackGivesEveryoneAVote(rows: seq<SheetRow>, lineup: seq<Player>)
    requires forall p :: p in lineup ==> HasName(p)
    ensures forall i :: 0 <= i < |lineup| ==>
      var q := ApplySheet(rows, lineup, true)[i];
      "voto_base" in q && q["voto_base"].Num? && "bonus_malus" in q && q["bonus_malus"].Num?
      && "nota" in q && q["nota"].Str? && "from_excel" in q && q["from_excel"] == Flag(RowFor(rows, lineup[i]).Some?)
  {
    forall i | 0 <= i < |lineup|
      ensures var q := ApplySheet(rows, lineup, true)[i];
              "voto_base" in q && q["voto_base"].Num? && "bonus_malus" in q && q["bonus_malus"].Num?
              && "nota" in q && q["nota"].Str? && "from_excel" in q && q["from_excel"] == Flag(RowFor(rows, lineup[i]).Some?)
    {
      ApplySheetAt(rows, lineup, true, i);
      MergedPlayerFields(lineup[i], RowFor(rows, lineup[i]), true);
    }
  }

  /** Names match up to surrounding whitespace and ASCII case: both spellings select the same row. */
  lemma NameMatchIgnoresCase(rows: seq<SheetRow>, p: Player, name: string)
    requires HasName(p)
    requires NameKey(name) == NameKey(p["nome"].s)
    ensures RowFor(rows, p["nome" := Str(name)]) == RowFor(rows, p)
  {
  }

  /** A padded, upper-case spelling and the plain one share a key, so they select the same row. */
  lemma NameMatchExample(rows: seq<SheetRow>, p: Player)
    requires HasName(p) && p["nome"].s == "rossi"
    ensures NameKey(" ROSSI ") == NameKey("rossi") == "rossi"
    ensures RowFor(rows, p["nome" := Str(" ROSSI ")]) == RowFor(rows, p)
  {
    NameKeyExample(" ROSSI ", "rossi");
    NameMatchIgnoresCase(rows, p, " ROSSI ");
  }

  lemma NameKeyExample(padded: string, plain: string)
    requires padded == " ROSSI " && plain == "rossi"
    ensures NameKey(padded) == NameKey(plain) == plain
  {
    StripPadded(padded, "ROSSI", 1);
    assert LowerAscii("ROSSI") == plain by {
      forall i | 0 <= i < 5
        ensures LowerAscii("ROSSI")[i] == plain[i]
      {
        LowerAsciiAt("ROSSI", i);
      }
    }
    TrimmedStripsToItself(plain);
    assert LowerAscii(plain) == plain by {
      forall i | 0 <= i < 5
        ensures LowerAscii(plain)[i] == plain[i]
      {
        LowerAsciiAt(plain, i);
      }
    }
  }

}
