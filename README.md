# Mutant Chronicles 3e dice and combat rules, in Dafny

This project models the rules engine of the Mutant Chronicles 3rd edition
system for a virtual tabletop (`mutant.mjs`), lifted out of the sheet classes
and chat hooks that hold it:

- **Symmetry dice (DSY)**: the face table (1 → one success, 2 → two, 6 → one
  effect), the per-die scoring loops of damage, impact and attack rolls, and
  the attack's dice count `max(0, weapon dice + damage bonus)`.
- **Damage formulas** `X+DSY` / `X+NDSY`: white space removed, upper-cased,
  matched against `^(\d+)\+(\d*)DSY$`; an empty count is one die, a count of
  0 is accepted.
- **Hit location** from a d20, a non-numeric value read as 0.
- **Damage bonus ladder** (`getSym`) and the melee/ranged choice.
- **Wound tracks**: the 12-row Physique + Strength table with its fallback
  row, stored box arrays normalised to the table's sizes, the mental track,
  box views, armour soak per location with arm coverage, vehicle damage
  tracks, and the click on a wound box.
- **Dread ladder**: five tiers, globally numbered boxes, the active effect and
  the complication limit `20 − effect` it gives skill tests.
- **Skill tests**: the player-character rule (TN and Focus counted
  independently, complications from the limit, an auto-success die fixed at 1
  bought with a Chronicle Point), the NPC rule, dice counts, and Chronicle
  Point normalisation and spending.
- **Click toggles** on Dread boxes, vehicle damage boxes and reload dots.
- **Roll record and reroll**: the record a skill or attack card stores, the
  reroll that pushes the old dice onto a history of at most 10 snapshots and
  writes fresh dice at the picked positions, and the card recomputed from the
  stored record.

Dice results are inputs (sequences of faces); the dice engine is assumed to
return as many faces as were asked for. A stored value that JavaScript may
read as `NaN` is modelled as `Common.Num` where the rules read it: hit
location, the Symmetry bonus (every comparison with `NaN` is false, so
`getSym` gives 5), the box table fallback, mental capacity, skill dice count
and Chronicle Points. Elsewhere inputs are integers; the places where that
hides a different outcome are listed under "Left out". The reroll time
stamp `Date.now()` is a parameter.

The pure rules are functions with lemmas; the loops of the source (scoring,
normalising, the Dread ladder, soak, the reroll replacement) are methods
proved equal to those functions; the stored roll record is a class whose
`Reroll` method updates its dice and history.

## Model

| member | source | states |
|---|---|---|
| Symmetry.MapFace | mutant.mjs:201-206 | a face gives at most 2 successes and 1 effect, never both; 1 success iff face 1, 2 iff face 2, an effect iff face 6, nothing for any other value |
| Symmetry.ScoreDamage | mutant.mjs:242-257 | the scoring loop yields the summed successes and effects of the faces and damage = base + successes |
| Symmetry.TotalsAdditive | mutant.mjs:2262-2278 | successes and effects of a concatenation are the sums of those of the parts |
| Symmetry.TotalsByFaceCount | mutant.mjs:1313-1329 | successes = number of 1s + 2 × number of 2s; effects = number of 6s |
| Symmetry.TotalsBounded | mutant.mjs:201-206 | at most 2 successes and 1 effect per die, and successes + 2 × effects ≤ 2 × dice |
| Symmetry.AttackDiceCount | mutant.mjs:1288 | attack dice = weapon count + bonus when that is not negative, 0 otherwise |
| Formula.StripSpace | mutant.mjs:209 | the result holds no white-space character and is no longer than the input; a single character is dropped iff it is white space |
| Formula.StripSpaceNoSpace | mutant.mjs:209 | text without white space is left as it is |
| Formula.StripSpaceAppend | mutant.mjs:209 | removal works piece by piece: stripping a concatenation concatenates the stripped pieces, so the other characters stay in order |
| Formula.Upper | mutant.mjs:209 | same length; each character upper-cased (ASCII letters shift by 32) |
| Formula.MatchComplete | mutant.mjs:210-215 | digits, '+', optional digits, "DSY" always match, giving base and count (empty count = 1) |
| Formula.Match | mutant.mjs:210-215 | a successful match comes from text that is exactly digits before the first '+', then optional digits, then "DSY", and denotes those captured digits |
| Formula.Parse | mutant.mjs:208-216 | empty text gives null; a formula is returned only for text whose normal form is digits '+' optional digits "DSY", and it is what those digits denote |
| Formula.ParseOfShape | mutant.mjs:208-216 | text whose normal form has that shape parses to the formula its digits denote |
| Formula.ParseCharacterization | mutant.mjs:208-216 | the parser returns a formula iff the normalised text is digits '+' optional digits "DSY", and the formula is what those digits denote |
| Formula.ParseLabel | mutant.mjs:265 | the formula text the damage card prints parses back to the same formula |
| Formula.DecimalValue | mutant.mjs:265 | the printed decimal digits of n read back as n |
| Formula.ParseEmptyCount | mutant.mjs:214 | "0+dsy" parses to base 0 with one die |
| Formula.ParseSpaced | mutant.mjs:209 | "3 + 2DSY" parses to base 3 with two dice |
| Formula.ParseZeroCount | mutant.mjs:214 | "2+0DSY" is accepted with zero dice |
| Formula.ParseRejects | mutant.mjs:211 | a sign or a missing "DSY" suffix is rejected |
| HitLocation.Locate | mutant.mjs:30-38 | each location holds exactly its band: ≤2 head, 3-8 torso, 9-11 right arm, 12-14 left arm, 15-17 right leg, ≥18 left leg |
| HitLocation.LocateValue | mutant.mjs:31 | a non-numeric value lands on the head; a number on its band |
| HitLocation.LocateMonotone | mutant.mjs:30-38 | a higher result never lands on an earlier band |
| HitLocation.D20Distribution | mutant.mjs:30-38 | on faces 1..20 the head has 2 faces, the torso 6, each limb 3 |
| DamageBonus.SymmetryBonus | mutant.mjs:692 | bonus 0 iff ≤8, 1 iff 9, 2 iff 10-11, 3 iff 12-13, 4 iff 14-15, 5 iff ≥16 |
| DamageBonus.SymmetryBonusOf | mutant.mjs:692-695 | a non-numeric attribute gets bonus 5; a number gets its table bonus |
| DamageBonus.SymmetryBonusSteps | mutant.mjs:1663 | the bonus never falls as the attribute rises, and rises by at most one per point |
| DamageBonus.AttackBonus | mutant.mjs:1270-1277 | a REACH weapon uses the Strength bonus, any other the Awareness bonus |
| WoundTrack.FindRow | mutant.mjs:643 | the row found is the first one whose band holds the total; none found iff no row holds it |
| WoundTrack.CombatBoxConfig | mutant.mjs:627-644 | an integer total gets the row of the band that holds it; a non-numeric total falls back to the first row |
| WoundTrack.ExactlyOneRow | mutant.mjs:627-644 | every integer total lies in exactly one band, and the lookup finds that row |
| WoundTrack.RowsMonotone | mutant.mjs:628-641 | a later row of the table never has fewer boxes on any track than an earlier one |
| WoundTrack.ConfigMonotone | mutant.mjs:628-641 | a higher Physique + Strength never gives fewer boxes on any track |
| WoundTrack.LimbSymmetry | mutant.mjs:639 | arms always match; legs differ only at 28-29, where the left leg has one box more |
| WoundTrack.Normalized | mutant.mjs:646-650 | length is `len`; the first min(len, stored) entries are the stored ones, the rest unchecked |
| WoundTrack.NormalizeBoolArray | mutant.mjs:646-650 | the slice-and-push loop computes the normalised array |
| WoundTrack.NormalizedIdempotent | mutant.mjs:646-650 | normalising a normalised array changes nothing |
| WoundTrack.NormalizedExamples | mutant.mjs:646-650 | [T,F] to 5 pads with unchecked boxes; [T,T,T] to 2 truncates; a non-array gives all unchecked |
| WoundTrack.Boxes | mutant.mjs:835 | one box per entry, numbered from 0, checked as the entry |
| WoundTrack.MentalCapacity | mutant.mjs:859-860 | mental boxes = Mental Strength when not negative, 0 when negative or not a number |
| WoundTrack.CombatTracks | mutant.mjs:780-793 | every stored track is normalised to the size its row of the table (or the mental capacity) gives |
| WoundTrack.CoverageOf | mutant.mjs:802 | a missing coverage is "both"; "both", "left", "right" select their arms |
| WoundTrack.AggregateSoak | mutant.mjs:799-823 | the soak loop computes the fold of every equipped armour |
| WoundTrack.SoakPerLocation | mutant.mjs:800-822 | each location's soak is the sum over armours of its value; an arm counts only covering armours; both legs soak alike |
| WoundTrack.Flip | mutant.mjs:1070 | in range the clicked box is inverted and nothing else; past the end the box is set after unchecked padding |
| WoundTrack.FlipTwice | mutant.mjs:1070 | clicking a box twice restores the track |
| WoundTrack.WoundBoxClick | mutant.mjs:1055-1071 | no update without a path or with a negative index; otherwise the normalised array with the box flipped |
| Vehicle.MkTrack | mutant.mjs:384-393 | max clamped to 0..30, current to 0..max, one box per unit of max, the first `cur` checked |
| Vehicle.TrackShowsCurrent | mutant.mjs:384-393 | the number of checked boxes equals the current value |
| Toggles.Toggle | mutant.mjs:463 | the new value is the clicked box, or one less exactly when the value already equals it |
| Toggles.DreadBoxClick | mutant.mjs:988-996 | the new Dread is the clicked index, or one less exactly when it already equals it |
| Toggles.ToggleTwice | mutant.mjs:988-996 | clicking the current value twice restores it; another box twice ends one below it |
| Toggles.VehicleBoxClick | mutant.mjs:450-464 | no update without paths or with a negative index; otherwise the toggled value, within 0..max |
| Toggles.ReloadUsed | mutant.mjs:871 | the stored reload count is read within 0..5: kept when in range, 0 below, 5 above |
| Toggles.ReloadDotClick | mutant.mjs:1077-1088 | no update without a weapon or with a negative dot; otherwise the toggled count, within 0..5 |
| Toggles.ReloadDots | mutant.mjs:889 | five dots, dot i filled iff i is below the reload count |
| Toggles.ReloadClickTwice | mutant.mjs:1084-1088 | clicking a dot twice restores the count when it was that dot, else leaves it one below |
| Dread.DreadLadder | mutant.mjs:699-735 | the ladder loop yields each tier's view and the value of the last complete tier |
| Dread.BoxesConsecutive | mutant.mjs:716-725 | boxes are numbered 1..15 without gap, each tier's last box carrying its threshold |
| Dread.CompleteIffLastBoxChecked | mutant.mjs:713-723 | a box is checked iff Dread reaches its number; a tier is complete iff its last box is checked |
| Dread.ActiveEffect | mutant.mjs:699-714 | the effect is 0 below 3 Dread, 1 from 3, 2 from 6, 3 from 10, 4 from 15 |
| Dread.ActiveIsHighestComplete | mutant.mjs:712-714 | the active effect is the value of the highest tier whose threshold is reached (0 if none), as a table over Dread |
| Dread.SevenDread | mutant.mjs:701-707 | 7 Dread completes tiers up to threshold 6: effect 2 |
| Dread.ActiveMonotone | mutant.mjs:712-714 | more Dread never lowers the effect |
| Dread.CompLimit | mutant.mjs:1418 | an effect of 0..4 gives a limit in 16..20: 20 with no effect, lower with any |
| Dread.CompLimitRange | mutant.mjs:1417-1418 | the complication limit lies in 16..20, and is 20 below 3 Dread |
| SkillTest.DieSuccesses | mutant.mjs:1491-1494 | a die gives 2 successes iff within TN and Focus, 0 iff above both, at most 2 |
| SkillTest.DieComplications | mutant.mjs:1496 | a die gives one complication iff it reaches the limit |
| SkillTest.ScoreSkill | mutant.mjs:1485-1516 | the scoring loop yields the summed per-die successes (plus the auto die's) and complications |
| SkillTest.AutoDieIsAFreeOne | mutant.mjs:1506-1516 | the auto die scores as a rolled 1 for successes and never adds a complication |
| SkillTest.SkillTotals | mutant.mjs:1485-1516 | at most 2 successes per die (auto die included) and 1 complication per rolled die |
| SkillTest.ExtremeDread | mutant.mjs:1496 | with a limit ≤ 1 every rolled d20 is a complication |
| SkillTest.SkillExample | mutant.mjs:1490-1496 | TN 10, Focus 5, limit 18, dice 3, 12, 18: 2 successes, 1 complication |
| SkillTest.SkillDiceCount | mutant.mjs:1455-1471 | the dialog count is clamped to 1..5; a non-numeric count rolls nothing |
| SkillTest.NormalizeChronicle | mutant.mjs:682-690 | max defaults to 5 and becomes 0 if negative or not a number; value defaults to 0 and is capped at max |
| SkillTest.NormalizeChronicleIdempotent | mutant.mjs:682-690 | normalising normal points changes nothing |
| SkillTest.SpendChronicle | mutant.mjs:1420-1478 | the auto die is used iff asked for with a point available; then the points drop by one, never below 0 |
| SkillTest.NpcDieSuccesses | mutant.mjs:1633-1634 | NPC die: 2 iff within Focus, 1 iff above Focus but within TN |
| SkillTest.ScoreNpcSkill | mutant.mjs:1627-1638 | the NPC loop yields the summed NPC per-die successes |
| SkillTest.NpcDiceCount | mutant.mjs:1620 | NPC dice are never fewer than 2, the requested count when it is 2 or more |
| SkillTest.PcNpcDieDiffer | mutant.mjs:1633-1634 | the two rules differ on a die iff it lies above TN but within Focus (PC 1, NPC 2) |
| SkillTest.PcNpcAgree | mutant.mjs:1627-1638 | with Focus ≤ TN both rules give the same total |
| RollSession.Insert | mutant.mjs:2063 | inserting into a sorted list keeps it sorted and adds exactly that element |
| RollSession.SortAscending | mutant.mjs:2063-2064 | the picked positions sorted ascending, the same multiset |
| RollSession.Selected | mutant.mjs:2063-2064 | one sorted position per pick of that die type |
| RollSession.ApplyFresh | mutant.mjs:2100-2107 | the replacement keeps the length of the dice |
| RollSession.ReplaceAt | mutant.mjs:2100-2107 | the replacement loop writes each fresh value at its in-range position, in order |
| RollSession.RollRecord.Skill | mutant.mjs:1553-1560 | a skill record stores TN, Focus, limit, auto flag and d20s, no d6, empty history |
| RollSession.RollRecord.Attack | mutant.mjs:1385-1396 | an attack record stores base, bonus, dice count, the location text of its d20, the d6 faces, empty history |
| RollSession.RollRecord.Reroll | mutant.mjs:2051-2107 | no picks: nothing changes; else the old dice go on the front of a history of ≤10, and each type's fresh values replace the picked positions smallest first |
| RollSession.RollRecord.SkillCard | mutant.mjs:2127-2163 | the skill card after a reroll reports the totals of the current d20s |
| RollSession.RollRecord.AttackCard | mutant.mjs:2225-2278 | the attack card recomputes successes, effects and total from the current d6s; its location text is the stored one |
| RollSession.RollRecord.AttackCardRecomputed | mutant.mjs:2236-2237 | the corrected card: the location text is the band of the current location die |
| RollSession.TwoRerolls | mutant.mjs:2088-2107 | d6 1,2,6: rerolling position 1 to 4 gives 1,4,6; then position 0 to 2 gives 2,4,6, with 1,4,6 then 1,2,6 in the history |
| RollSession.StaleLocationLabel | mutant.mjs:2236-2237 | after the location die is rerolled from 1 to 20 the card shows 20 with the label HEAD, though 20 is LEFT LEG |
| RollSession.PushHistory | mutant.mjs:2088-2097 | the new snapshot is first, older ones shift down by one, length min(old + 1, 10) |
| RollSession.ApplyFreshKeeps | mutant.mjs:2100-2107 | a position not picked keeps its die |
| RollSession.ApplyFreshPlaces | mutant.mjs:2100-2107 | with distinct ascending positions the k-th fresh value lands on the k-th position |
| RollSession.IndicesOfCount | mutant.mjs:2063 | filtering by type keeps each picked position as often as it was picked |
| RollSession.SelectedStrictlySorted | mutant.mjs:2063-2064 | distinct picks give strictly ascending positions |
| RollSession.PickedIffSelected | mutant.mjs:2063-2064 | a position is selected for a type iff it was picked with that type |
| RollSession.RerollReplacesPicked | mutant.mjs:2063-2107 | an unpicked die keeps its value; the i-th smallest picked position of a type gets that type's i-th fresh value |

## Left out

- Sheet data assembly, Handlebars helpers, the `@Quality` enricher, HTML and colour building of the chat cards, and the history lines of the cards: presentation only.
- `Roll.evaluate`, Dice So Nice and the dialogs: the dice are inputs, and a dice engine that returns fewer faces than asked for is not modelled (the reroll requires exact counts).
- Document reads and writes (`actor.update`, `item.update`, `ChatMessage.create`, `fromUuid`, drag and drop, flags, clipboard): the model computes the values written.
- `Date.now()` in the history snapshot: a parameter.
- Concurrent reroll clicks: the handler has no locking and the model is sequential.
- Talent description trimming: display formatting.
- The unused `dsp` value of the skill roll (mutant.mjs:1473): computed and never read.
- The skill TN sum (attribute + expertise, mutant.mjs:1414) and NPC TN: plain additions done by the callers.
- Number precision: digit strings and totals are unbounded integers; JavaScript loses exactness above 2^53.
- Formula.UpperChar: upper-casing is modelled for ASCII letters and U+017F only; other characters cannot take part in a match either way.
- WoundTrack.Flip: JavaScript leaves holes past the end of the array; they are modelled as unchecked entries, which is how the box view reads them.
- WoundTrack.CombatBoxConfig: Physique + Strength is an integer here; a fractional total between two bands (11.5, say) matches no row in the source and falls back to the first row.
- Toggles.VehicleBoxClick: the stored max is an integer here; a max that reads as `NaN` makes `Math.min`/`Math.max` give `NaN`, which the source then writes.
- Non-integer box indices and non-numeric values other than those modelled with `Num`.

## Findings

| source | as written | input that shows it | evidently intended | confidence | as-written member | corrected member |
|---|---|---|---|---|---|---|
| mutant.mjs:2236-2237 | after a reroll the attack card shows the current location die but the location text stored when the attack was first rolled | attack with location die 1 (HEAD), location die rerolled to 20 | the text recomputed from the current die (LEFT LEG), as every other derived field is | not executed; high | RollSession.StaleLocationLabel | RollSession.RollRecord.AttackCardRecomputed |
