# Pétanque tournament generator — a Dafny model

This project models the `PetanqueTournament` class of a small pétanque
tournament generator. The class checks that the players split into full teams
("doublette" gives teams of two, any other team type teams of three). It draws
the two teams of each round from one shuffle of the players, and writes a
workbook with one sheet per round ("Partie 1", "Partie 2", …) and an overall
results sheet ("Résultat Global").

Files:

- `text.dfy` (module `Text`): Python's `str()` of a non-negative integer and its
  inverse, used in sheet titles and in the error message; `str.capitalize`,
  used in the file name; ASCII lower-casing, for comparing titles ignoring case.
- `sheets.dfy` (module `Sheets`): the workbook as values. A sheet is a title and
  a map from (row, column) to the value last written there. It also holds the
  write loops (a later write to a cell replaces an earlier one) and the lookup
  of a sheet by title.
- `petanque.dfy` (module `Petanque`): the class `PetanqueTournament` with its
  fields, invariant `Valid()`, constructor, `GenerateMatches` and
  `CreateExcelFile`. It also holds the shuffle, the draw of one round, the
  layout of a round sheet, and the lemmas about them.

How the source is modelled:

- `__init__` either raises `ValueError` or sets the fields. `NewTournament`
  returns `Failure(ValueError(message))` exactly when the player count is not a
  multiple of twice the team size. Otherwise it returns a fresh object built by
  the class constructor. Python's `%` and Dafny's `%` agree for the positive
  divisors 4 and 6, so negative counts behave as in Python.
- `random.shuffle` is modelled as its own loop: for i from the last index down
  to 1, swap elements i and `randBelow(i + 1)`. The random source `randBelow` is
  a parameter that gives a draw below each bound. Whatever it returns, the
  result is a permutation.
- `self.players` is a `seq` field that the shuffle reassigns, and `self.matches`
  is a `seq` field that the loop appends to.
- `create_excel_file` writes cells in a fixed order. The model keeps that order
  (`RoundSheet`, `BuildWorkbook`) and proves what each cell holds at the end
  (`RoundLayout`, `GlobalLayout`). `ws.cell(row, column)` with no value writes
  nothing, so the styling loop at lines 118–122 changes no value.
- Team 1's player ids never survive on a round sheet. They are written
  down column 1, and the blank "Terrain" cells then overwrite rows 2..2t+1 of
  that column. The headers overwrite the "Equipe 1"/"Equipe 2" labels. Only
  team 2's ids remain, in column t + 2 (`OnlySecondTeamShown`).

Behaviour of the code worth knowing:

- Every round recorded by one call of `generate_matches` is the same, because
  the only shuffle is at line 36, before the loop.
- The check at line 20 is the only check on the player count. There is no
  minimum, so 0 and negative multiples of twice the team size pass.
- Besides the team labels (lines 85, 89), the player ids (line 99) and the
  blank "Terrain" cells (line 113), only header texts are written (lines
  104–109, 128–132): no score, no total and no formula.
- Any team type other than "doublette" gives teams of 3 (line 17).

## Model

| member | source | states |
|---|---|---|
| Petanque.TeamSize | petanque_tournament_generator.py:17 | team size is 2 exactly when the team type is "doublette", otherwise 3 |
| Petanque.MultipleMessageReadsBack | petanque_tournament_generator.py:21 | the error message is "Le nombre de joueurs doit être un multiple de " followed by decimal digits that read back as the required multiple |
| Petanque.NewTournament | petanque_tournament_generator.py:14-29 | fails (ValueError, message naming twice the team size) iff the player count is not a multiple of twice the team size; on success returns a fresh valid tournament in its initial state |
| Petanque.PetanqueTournament.constructor | petanque_tournament_generator.py:14-29 | fields hold the arguments, players = [1..n], no matches, both point tables map exactly the players 1..n to 0, and the invariant holds |
| Petanque.PlayerIds | petanque_tournament_generator.py:24 | `list(range(1, n + 1))`: length max(n, 0), element i is i + 1 |
| Petanque.PlayerIdsMembers | petanque_tournament_generator.py:24 | x is a player id iff 1 <= x <= n |
| Petanque.Swap | petanque_tournament_generator.py:36 | the exchange of two elements keeps the multiset and distinctness and touches nothing else |
| Petanque.Shuffle | petanque_tournament_generator.py:36 | for any random source giving draws below their bound, the result is a permutation of the input (same length, same multiset) and stays duplicate-free |
| Petanque.DrawTeams | petanque_tournament_generator.py:40-49 | the two-team loop gives [players[0..k], players[h..h+k]] with h = n/2, k = min(team size, h) |
| Petanque.MatchTeamsIsDraw | petanque_tournament_generator.py:42-48 | from any ordering of 1..n with n a multiple of 2t, the round has two teams of t players (none when n <= 0), ids in 1..n, no repeats, and no player in both teams |
| Petanque.PetanqueTournament.GenerateMatches | petanque_tournament_generator.py:31-53 | players become a permutation of what they were; exactly max(num_matches, 0) rounds are appended; earlier rounds unchanged; every appended round equals the draw from the one shuffled order; returns the whole list; invariant kept |
| Sheets.NewWorkbook | petanque_tournament_generator.py:60 | a new workbook has exactly one empty sheet titled "Sheet" |
| Sheets.WriteDown | petanque_tournament_generator.py:98-99 | writing values down a column from a row and column of at least 1: those cells hold the new values, every other cell keeps its old value |
| Sheets.WriteAcross | petanque_tournament_generator.py:106-107 | writing values along a row from a row and column of at least 1: those cells hold the new values, every other cell keeps its old value |
| Petanque.RoundWritesLayout | petanque_tournament_generator.py:85-113 | the write sequence of a round sheet leaves exactly the RoundKey cells, each with its RoundValue (last write wins) |
| Petanque.RoundSheet | petanque_tournament_generator.py:84-113 | a round sheet written in program order has the given title and the layout RoundLayout |
| Petanque.RoundSheetCells | petanque_tournament_generator.py:85-113 | row 1 columns 1-5 hold the five headers in order; column 1 rows 2..2t+1 hold ""; team-2 player i sits at row i+1, column t+2; the "Equipe 2" label survives only if t + 2 > 5 |
| Petanque.OnlySecondTeamShown | petanque_tournament_generator.py:94-113 | when team 1 fits in the "Terrain" rows, every player id left on the sheet is a team-2 player |
| Text.DecimalString | petanque_tournament_generator.py:75 | `str(n)`: non-empty, all digits, no leading zero, "0" only for 0 |
| Text.DecimalRoundTrip | petanque_tournament_generator.py:75 | reading back the decimal spelling of n gives n |
| Text.DecimalStringInjective | petanque_tournament_generator.py:75 | different numbers have different spellings |
| Petanque.RoundTitleReadsBack | petanque_tournament_generator.py:75 | the title of round k is "Partie " followed by decimal digits that read back as k |
| Petanque.RoundTitlesDistinct | petanque_tournament_generator.py:75 | "Partie a" = "Partie b" only if a = b; no round title is "Résultat Global" or "Sheet" |
| Petanque.SheetTitlesUnique | petanque_tournament_generator.py:74-75 | with titles "Partie 1".."Partie m", "Résultat Global", no title is "Sheet" and no two sheets share a title |
| Petanque.RoundTitlesDistinctIgnoringCase | petanque_tournament_generator.py:75 | ignoring case, "Partie a" = "Partie b" only if a = b, and no round title is "Résultat Global" or "Sheet" |
| Petanque.SheetTitlesUniqueIgnoringCase | petanque_tournament_generator.py:74-75 | ignoring case, no two of those titles are equal and none is "Sheet" |
| Sheets.IndexOfTitle | petanque_tournament_generator.py:135-136 | the index of the first sheet with the title, or -1 exactly when no sheet has it |
| Petanque.BuildWorkbook | petanque_tournament_generator.py:60-136 | sheets are the m round sheets titled "Partie 1".."Partie m" with their RoundLayout, then "Résultat Global" holding exactly its five headers in row 1; the default sheet is gone |
| Petanque.PetanqueTournament.CreateExcelFile | petanque_tournament_generator.py:55-142 | the workbook of the recorded rounds as BuildWorkbook states, with unique titles and no "Sheet", and the file name "Tournoi_Petanque_" + capitalized team type + ".xlsx" |
| Text.Capitalize | petanque_tournament_generator.py:139 | same length, first letter upper case, the rest lower case |

## Left out

- Styling and output: fills, fonts, borders, column widths, alignment (lines 62–71, 78–82, 86–87, 90–91, 100–101, 108–109, 114–115, 118–122, 131–132), and `wb.save` to disk (line 140). These are formatting and file I/O.
- Petanque.Shuffle: promises only some permutation. The model does not capture the uniform distribution of `random.shuffle`, which is not a verifiable property here. It does not prove that every permutation is reachable.
- Petanque.PetanqueTournament.GenerateMatches: returns the list's value. The aliasing between the returned list and `self.matches` is not modelled.
- Text.Capitalize: maps only ASCII letters. Python's Unicode case mapping of other characters is not modelled; the team types in use are ASCII.
- Non-string team types and non-integer counts, which raise `TypeError` in Python or compare unequal to "doublette", are outside the model's types.
- Duplicate sheet titles are not modelled. openpyxl renames a sheet whose title equals an existing one ignoring case, and SheetTitlesUniqueIgnoringCase shows that this never happens here (with "Sheet" still present while the round sheets are created).
- `main()` (lines 145–161), an example driver: it builds a 12-player doublette tournament with 5 rounds, calls `generate_matches` and `create_excel_file` (which saves the workbook, line 140), and prints the file name. It adds no behaviour beyond those calls on fixed arguments, and printing is I/O.
- `app.py` and `tournament_generator.py`, the web layer (routing, CORS, JSON parsing, `send_file`). Both call `create_workbook()`, which the class does not define.
