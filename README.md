# Fantacalcio scoring engine in Dafny

This project models the rule logic of a fantasy-football ("fantacalcio") app
and proves properties of that model. It covers three parts:

- **The scoring engine** (`calc.py`, module `Calc` in `calc.dfy`):
  - the event bonus/malus;
  - the per-player and team totals;
  - the defence, midfield and attack modifiers;
  - the score-to-goals step function;
  - the match aggregator, which builds the result record for both sides.
- **The spreadsheet vote import** (`excel_import.py`, module `ExcelImport` in
  `excel_import.dfy`):
  - the "6*" / "SV" vote-cell rule;
  - the name-keyed merge of sheet rows into a lineup, with its optional
    default vote;
  - the bonus adapter that the merge calls.
- **The lineup-text parser** `parse_formazione_da_testo` (`app.py`, module
  `LineupParser` in `lineup_parser.dfy`):
  - the "(P) Name(D) Name..." tagged format;
  - the one-player-per-line format, with header filtering, three line shapes
    and a positional role guess.
  - The regular expressions are written out as character-level functions.
    These follow the regex engine's greedy and lazy choices and its
    backtracking for these patterns.

Two supporting modules hold shared definitions:

- `Options` (`options.dfy`) holds an `Option` type.
- `Text` (`text.dfy`) holds `str.strip`, ASCII `lower()`, `startswith`, `in`,
  `replace(x, '')`, `split('\n')` and decimal rendering, each with its lemmas.

Where the source loops and appends, the model is a `method` with the same
loop. Each such method is proved equal to a specification function, and the
rules are proved about that function:

| method | specification function |
|---|---|
| `ComputeEventBonus` | `EventBonus` |
| `ComputeMidfieldModifiers` | `MidfieldModifiers` |
| `ComputeAttackModifier` | `AttackTotal` |
| `SplitLineup` | `Totals`, `RatingsOf`, `AttackersOf` |
| `ComputeMatchResult` | `MatchResultOf` |
| `BuildIndex` | `SheetIndex` |
| `ApplySheetToLineup` | `ApplySheet` |
| `ParseLineupText` | `LineupFromText` |

Ratings are `real`. A role is `Goalkeeper`, `Defender`, `Midfielder`,
`Attacker`, or `OtherRole(code)`:

- Only the exact codes "P", "D", "C" and "A" select a role rule.
- Any other code only adds to the team total.

Three things are parameters rather than code:

- Python's `float(...)` is the function parameter `parseNumber`.
- A missing or NaN cell is the `Cell.Missing` case.
- A lineup player is a `map<string, Value>`, standing for its dict.

## Model

| member | source | states |
|---|---|---|
| Calc.RoleOf | calc.py:307-322 | the defender, midfielder and attacker lists (and the goalkeeper rules of the event table) are selected exactly by the codes "D", "C", "A" (and "P"); any other code is kept as a role that selects nothing |
| Calc.RoleCodeRoundTrip | calc.py:307-322 | reading a code gives a canonical role that writes back to the same code, and every canonical role is read from its own code |
| Calc.ComputeEventBonus | calc.py:9-74 | the step-by-step accumulation equals the event table: 3 per goal, 1 per assist, 3 per penalty scored or saved, −3 per penalty missed, −2 per own goal, −0.5 per yellow, −1 per red, plus the two goalkeeper rules |
| Calc.ConcededIgnoredOutsideGoal | calc.py:61-72 | for any role other than the goalkeeper, goals conceded do not affect the bonus |
| Calc.CleanSheetBonus | calc.py:61-72 | a goalkeeper gets exactly +1 over the outfield bonus iff no goals were conceded, and strictly less than the outfield bonus iff some were |
| Calc.EventBonusExamples | calc.py:39-74 | worked values: two goals and an assist give 7; a goal, a yellow and a red give 1.5; a keeper conceding two gives −2; a keeper saving a penalty on a clean sheet gives 4; an own goal and a missed penalty give −5 |
| Calc.TeamRatingSplit | calc.py:77-102 | the team total, the sum of base + bonus over every entry, is the sum of base ratings plus the sum of bonuses |
| Calc.DefenceBand | calc.py:126-145 | the band value lies between −5 and +4 |
| Calc.DefenceBandFormula | calc.py:126-145 | the ten-step table equals 3 − ⌊4·(mean − 5)⌋ clamped to [−5, 4], i.e. 0.25-wide bands from +4 below 5.00 down to −5 from 7.00 |
| Calc.DefenceBandAntitone | calc.py:126-145 | a higher mean never gives a higher band value |
| Calc.FormationCorrection | calc.py:147-158 | +1 for exactly 3 defenders, 0 for 4, −2 for 5 (the −1 plus one extra), 4 − n for n > 5, 0 below 3 |
| Calc.DefenceModifier | calc.py:105-160 | 0 for no defenders; otherwise an integral value within the band range shifted by the formation correction |
| Calc.DefenceModifierAntitone | calc.py:105-160 | with the same number of defenders and count, a line with a larger rating sum never produces a larger modifier |
| Calc.DefenceModifierExamples | calc.py:105-160 | worked values: [6, 6.5, 6.5, 6] with 4 gives −2; [5.5 ×3] with 3 gives +2; [7 ×5] with 5 gives −7 |
| Calc.MidfieldBand | calc.py:199-216 | the magnitude is one of 0, 0.5, …, 4.0 |
| Calc.MidfieldBandFormula | calc.py:199-216 | for a non-negative difference the magnitude is 0.5·min(⌊diff⌋, 8) |
| Calc.Padding | calc.py:181-189 | the padding of the shorter side has exactly the missing number of slots |
| Calc.MidfieldSplit | calc.py:219-224 | the larger sum gets +magnitude and the other −magnitude; equal sums give (0, 0) |
| Calc.MidfieldModifiers | calc.py:163-224 | the two modifiers are opposite, the magnitude is in {0, 0.5, …, 4}, equal padded sums give (0, 0), and the side with the larger padded sum gets the non-negative value |
| Calc.MidfieldExamples | calc.py:163-224 | worked values: five 6.0 against five 6.0 gives (0, 0); four 6.0 against five 6.0 gives (−0.5, +0.5), the home side padded with one 5.0; five 7.0 against five 5.0 gives (+4, −4) |
| Calc.MidfieldSwap | calc.py:163-224 | swapping the two sides swaps the two modifiers |
| Calc.PaddingSum | calc.py:181-189 | padding with n slots adds 5.0·n to the sum |
| Calc.ComputeMidfieldModifiers | calc.py:163-224 | copying and extending the lists, summing and taking the band gives exactly the specified pair |
| Calc.AttackerBonus | calc.py:239-254 | an attacker contributes 0, 0.5, 1 or 1.5; something only when the bonus is exactly 0 and the base is at least 6.5; 1.5 iff the base is at least 7.5; 0.5 iff the base is in [6.5, 7) |
| Calc.AttackTotal | calc.py:227-254 | the attack modifier lies in [0, 1.5 · number of attackers] |
| Calc.ComputeAttackModifier | calc.py:239-254 | the accumulation loop equals the sum of the per-attacker contributions |
| Calc.AttackExamples | calc.py:227-254 | worked values: 7.0 with no bonus gives 1; 6.5 gives 0.5; 7.5 with a bonus gives 0; 7.5 plus a 6.0 with a bonus gives 1.5 |
| Calc.GoalsFromScore | calc.py:257-281 | goals are never negative and are 0 exactly below 66 |
| Calc.GoalsReachThreshold | calc.py:267-281 | at least g goals iff the score reaches the g-th threshold (66, 72, 77, 81, then 85 + 4·(g − 4) from the fifth goal on, so 89 for the fifth) |
| Calc.GoalsMonotone | calc.py:257-281 | a higher score never gives fewer goals |
| Calc.GoalsExamples | calc.py:267-281 | the values on both sides of every step: 65.99/66, 71.99/72, 76.99/77, 80.99/81, 84.99/85, and 89 → 5, 93 → 6 |
| Calc.RatingsCount | calc.py:302-325 | the defender (or midfielder) list is as long as the number of entries with that role |
| Calc.AttackersCount | calc.py:302-325 | the attacker list is as long as the number of 'A' entries |
| Calc.LinesDisjoint | calc.py:302-325 | the three role lists together never hold more entries than the lineup |
| Calc.SplitLineup | calc.py:302-325 | the per-side loop produces the per-player totals and the defender, midfielder and attacker lists, in lineup order |
| Calc.ScoreLabelRoundTrip | calc.py:434 | the "home - away" label reads back to the two goal counts |
| Calc.MatchResultOf | calc.py:284-435 | each side generates the defence modifier of its own defenders (with their count), and each side's conceded modifier is the other side's generated one, so a side scores against the opponent's defence; the midfield pair is the modifiers of the home and away midfielders' ratings; each side's attack is the attack total of its own attackers; final score = team total + conceded defence + midfield + attack + advantage (2.0 home, 0.0 away); opposite midfield values; goals from the unrounded scores; role counts equal the number of 'D', 'C', 'A' entries; the label is made of the two goal counts |
| Calc.ComputeMatchResult | calc.py:284-435 | the aggregator as written, loops and all, returns exactly that result |
| Calc.HomeAdvantageOnlyAsymmetry | calc.py:384-403 | playing the same lineups with home and away exchanged changes nothing but the 2.0 advantage, so the home side never scores fewer goals for being at home |
| ExcelImport.ParseVote | excel_import.py:11-43 | the note is "" or "SV"; it is "" exactly when the cell is present, has no '*' and parses; a parsable cell keeps its number, with asterisks removed; a missing or unparsable cell gives (6.0, "SV") |
| ExcelImport.StarredVoteExample | excel_import.py:11-43 | "6*" gives (6.0, "SV"), " 6.5 " gives (6.5, ""), a missing cell gives (6.0, "SV") |
| ExcelImport.ComputeRowBonus | excel_import.py:118-139 | the adapter builds the events from the row and takes the event bonus for the row's own role |
| ExcelImport.RowBonusKeeperRules | excel_import.py:118-139 | on a clean sheet a row earns the keeper's +1 exactly when its role is "P" |
| ExcelImport.SheetIndexLastWins | excel_import.py:159-162 | a name key is in the index iff some row has it, and then it maps to the last such row |
| ExcelImport.BuildIndex | excel_import.py:159-162 | the index-building loop gives exactly that index |
| ExcelImport.WithMergedFields | excel_import.py:172-211 | the copy gains the five merged keys with the given values and keeps every other key and value |
| ExcelImport.MergedPlayerFields | excel_import.py:165-211 | a matched player gets the row's vote, note, from_excel = True, the row's events and the bonus for the row's role; an unmatched player gets 6.0, 0.0, "SV", False and no events under the fallback, and is left unchanged without it; other keys are kept |
| ExcelImport.ApplySheet | excel_import.py:142-213 | the merged lineup has as many entries as the input |
| ExcelImport.ApplySheetAt | excel_import.py:165-213 | entry i of the result is input player i merged with the row its name selects: same length, same order |
| ExcelImport.MergeEntry | excel_import.py:165-211 | one iteration of the loop: dictionary lookup, then copy and update, or fall back |
| ExcelImport.ApplySheetToLineup | excel_import.py:142-213 | the loop appends exactly the merged copies, in order |
| ExcelImport.FallbackGivesEveryoneAVote | excel_import.py:197-211 | with the fallback on, every player of the result carries a numeric vote, a numeric bonus and a textual note, and its from_excel flag is True exactly when a sheet row matched its name |
| ExcelImport.NameMatchIgnoresCase | excel_import.py:168-170 | names that agree after strip and lower-case select the same row |
| ExcelImport.NameMatchExample | excel_import.py:161-170 | " ROSSI " and "rossi" have the same key, "rossi", so both select the same row |
| LineupParser.LazyNameEnd | app.py:504 | the lazy name ends at the first position where a tag or the end follows, with no '(' inside; when there is no end, no position the lookahead accepts can be reached without crossing a '(' |
| LineupParser.NameAfterSpaces | app.py:504 | after the whitespace run and its backtracking, the name is non-empty, free of '(' and followed by a tag or the end; it starts at the last place in the run where a name fits, ends at the first end allowed, and there is no name exactly when no place in the run fits one |
| LineupParser.TaggedAt | app.py:504-505 | there is a match at i exactly when a "(X)" tag, X a role letter in either case, stands at i and a name fits somewhere in the whitespace after it; the name group is then the text from the last such place to the first end the lookahead allows, non-empty and without '(' |
| LineupParser.FindTagged | app.py:504-505 | every match found carries a role letter and a non-empty name without '(' |
| LineupParser.FindTaggedNoTag | app.py:504-505 | a text with no '(' has no match |
| LineupParser.FindTaggedRoundTrip | app.py:504-505 | entries written as "(X) name" one after another, with plain names, are found back exactly, in order |
| LineupParser.TaggedSampleExample | app.py:502-505 | "(P) Sommer(D) Bastoni" gives the matches ('P', "Sommer") and ('D', "Bastoni") |
| LineupParser.CleanNameNoDigits | app.py:510-512 | a stripped name without digits is left as it is by the cleaning |
| LineupParser.TaggedTextLineup | app.py:504-520 | eleven or more entries written in the tagged format, with plain digit-free names, give the first eleven, role upper-cased, names unchanged |
| LineupParser.TaggedElevenExample | app.py:504-520 | the eleven "(P) Sommer(D) Bastoni(d) Cambiaso…(a) Thuram" give exactly those eleven entries, lower-case roles upper-cased |
| LineupParser.NumericTailStartFacts | app.py:512 | the numbers removed from a name start at the leftmost position from which the rest is digits, an optional point, digits and blanks |
| LineupParser.CleanName | app.py:510-512 | a cleaned name is stripped |
| LineupParser.CleanNameExample | app.py:510-512 | " Sommer 6.5 " cleans to "Sommer" |
| LineupParser.TaggedCandidateAt | app.py:509-517 | candidate i is match i with its letter upper-cased and its name cleaned |
| LineupParser.KeepNamedAll | app.py:513 | no entry is dropped exactly when no cleaned name is empty |
| LineupParser.TaggedPicks | app.py:507-517 | at most one entry per match, each with a role code and a non-empty stripped name |
| LineupParser.TaggedFormatTaken | app.py:507-520 | with at least eleven matches and no empty name among the first eleven, the result is those eleven entries, in order, upper-cased and cleaned |
| LineupParser.TaggedFormatRefused | app.py:507-523 | with fewer than eleven matches, or an empty name among the first eleven, the result is the line format's |
| LineupParser.NonBlank | app.py:523 | the pieces kept are non-empty, stripped and free of newlines; the strip of every non-blank piece is kept; the result is no longer than the input, and is the input itself when every piece is already stripped and non-blank |
| LineupParser.NonBlankAppend | app.py:523 | the filter keeps order: the kept pieces of two parts put together are those of the first part followed by those of the second |
| LineupParser.NonBlankLines | app.py:523 | the lines kept are non-empty, stripped and free of newlines |
| LineupParser.NonBlankLinesJoin | app.py:523 | stripped non-blank lines joined by newlines are split back into exactly those lines |
| LineupParser.HeaderFree | app.py:526-534 | a line is kept iff it is one of the lines and contains no header keyword; the result is no longer than the input, and is the input itself when no line is a header |
| LineupParser.HeaderFreeAppend | app.py:526-534 | the filter keeps order: the kept lines of two parts put together are the kept lines of the first part followed by those of the second |
| LineupParser.HeaderExample | app.py:526-534 | the keywords are matched case-insensitively: "FORMAZIONE Inter" is a header |
| LineupParser.NotHeaderByPairs | app.py:526-534 | a line in which, lower-cased, the first two characters of no keyword stand together is not a header |
| LineupParser.LeadingRoleShape | app.py:540-545 | the first shape fires exactly on a role letter, then ':' or whitespace, then at least one more character; the role is the letter upper-cased; the name is the stripped rest after the whole run of ':' and whitespace, or the last character when the run reaches the end |
| LineupParser.LeadingRoleAt | app.py:538-545 | a role letter, a run of ':' or whitespace up to e, and a name from e on: the line gives that letter upper-cased and the stripped name |
| LineupParser.LeadingRoleFirst | app.py:540-545 | a line of the first shape is decided by it, before any other shape is tried |
| LineupParser.TrailingRoleFromShape | app.py:548-553 | the second shape fires exactly when some split leaves a "[-\s]+(X)" suffix; the name is the stripped text before the first such split |
| LineupParser.NoSeparatorNoTrailingRole | app.py:548 | a line with no '-' or whitespace never takes the second shape |
| LineupParser.RoleWordNeedsRoleInitial | app.py:556-567 | a line whose first letter lower-cases to none of p, d, c, a matches no role word |
| LineupParser.RoleWordPickWellFormed | app.py:556-567 | a role-word entry has a role code and a non-empty stripped name |
| LineupParser.FallbackRole | app.py:571-582 | the guessed role is always a role code |
| LineupParser.FallbackFormation | app.py:571-582 | the guesses for counts 0..10 spell "PDDDDCCCCAA"; every later one is 'A' |
| LineupParser.ClassifyLineSome | app.py:538-582 | a line gives an entry exactly when it is longer than two characters |
| LineupParser.ClassifyLineWellFormed | app.py:538-582 | every entry from a stripped non-blank line has a role code and a non-empty stripped name |
| LineupParser.LeadingRoleExample | app.py:540-545 | "P: Rossi" and "P:: Rossi" both give ('P', "Rossi") |
| LineupParser.BracketedRoleExample | app.py:548-553 | "Rossi (D)" gives ('D', "Rossi") |
| LineupParser.DashedRoleExample | app.py:548-553 | "Bianchi - a" gives ('A', "Bianchi") |
| LineupParser.RoleWordExample | app.py:556-567 | "Portiere:Sommer" gives ('P', "Sommer") |
| LineupParser.FallbackExample | app.py:571-582 | "Lautaro" as the tenth entry gives ('A', "Lautaro") |
| LineupParser.PortiereQuirk | app.py:562-567 | a bare "Portiere" gives ('P', "tiere"): the empty remainder after "portiere" does not end the search, so "por" matches |
| LineupParser.LinePicksFacts | app.py:536-582 | the line loop yields one entry per line longer than two characters, each well-formed |
| LineupParser.LineupFromText | app.py:490-584 | blank text gives None; a result is never an empty list |
| LineupParser.LineupWellFormed | app.py:490-584 | whichever format is taken, every entry has a role code and a non-empty stripped name |
| LineupParser.LineFormatText | app.py:496-584 | a text of stripped non-blank lines, none with '(' and none a header, is read by the line loop alone: the result is its entries, or None when there are none |
| LineupParser.TwoLinesText | app.py:523-584 | two such lines joined by a newline give the first line's entry, then the second's, counted from the first |
| LineupParser.LineTextExample | app.py:490-584 | "P: Rossi\nD: Bianchi" gives ('P', "Rossi"), ('D', "Bianchi") |
| LineupParser.MatchRoleWord | app.py:562-567 | the for/else loop over the role words returns the first word with a non-empty remainder |
| LineupParser.ParseLine | app.py:538-582 | one pass of the line loop gives exactly the specified classification |
| LineupParser.TakeTagged | app.py:508-517 | the tagged loop over the first eleven matches gives exactly the specified entries |
| LineupParser.DropHeaders | app.py:526-534 | the filter loop keeps exactly the non-header lines, in order |
| LineupParser.CollectPicks | app.py:536-582 | the line loop, with the running count, gives exactly the specified entries |
| LineupParser.ParseLineupText | app.py:490-584 | the parser as written returns exactly the specified result |

## Left out

- db.py (storage, backup, export) is not part of this model: it is persistence I/O with no rule logic.
- The rest of app.py is not modelled: rendering, session state, uploads and the database-writing `applica_voti_da_excel`. It is UI and storage; its matching repeats the one modelled from excel_import.py.
- `leggi_excel_voti`, `importa_voti_excel` and `esporta_template_excel` are not modelled: they read and write spreadsheet files through pandas.
- Python's `float(...)` is the parameter `parseNumber` of `ExcelImport.ParseVote`, and `pd.isna` is the `Cell.Missing` case. Numeric cells that pandas already hands over as floats are modelled through their text.
- Floating point is modelled as exact `real` arithmetic. The `round(..., 2)` of the result record is left out: it only affects displayed fields, and goals are computed before it.
- Unicode is handled at ASCII level only. Whitespace is the ASCII part of Python's `str.isspace`, and case mapping covers only the letters A–Z. Unicode digits and other case pairs are not modelled.
- Dict `.get` defaults are left out. Sheet rows, events and attacker records carry all their fields as typed values, so a missing event count cannot be expressed, while the source would read it as 0.
- `None` passed as the text to the parser is not modelled. The model takes a string, and blank text already gives `None`.
- The regular expressions are modelled only for the patterns the parser uses, not as a general matcher.
- Calc.DefenceModifier: its contract gives a range, not the exact value. The exact value is pinned down by `DefenceBandFormula`, `FormationCorrection` and the worked examples.
- ExcelImport.ApplySheet (with `ApplySheetToLineup`, `MergeEntry` and the lemmas about them) requires `HasName` of every lineup player: a player without a textual "nome" is excluded, while the source raises a KeyError or AttributeError for it at excel_import.py:168.
- ExcelImport.ApplySheet: players are map values, so aliasing is not captured. Without a matching row and with the fallback off, the source appends the caller's own dict rather than a copy (excel_import.py:211), so the returned lineup shares that object with the input; the model only states that the entry equals the input player.
- `Calc.Role` can express `OtherRole("D")`, which the source never produces. The model does not exclude it by type: every lineup entry is built with `RoleOf` of its code, and `CanonicalRole` with `RoleCodeRoundTrip` states which roles that yields.
- The lineup size of 11 is not enforced, as in the source. The aggregator and the parser accept lineups of any length.
