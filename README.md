# DnD Roller attack engine, in Dafny

This project models the dice and attack logic of the DnD Roller Discord bot.

- `roll.dfy` (module `Roll`) models `lib/roll.py`:
  - `roll_die` and `roll_damage`;
  - `roll_attack`, covering standard, advantage and disadvantage;
  - `calculate_crit_damage`, which is the maximum damage plus one more damage roll.
- `attack.dfy` (module `Attack`) models the `!attack` command of `cogs/attack.py`. It covers:
  - the attack-type check against the three configured command names;
  - the creature lookup by lower-cased name;
  - the choice of action: the one named, else the creature's default action;
  - the loop that rolls one attack per creature, recording for each the natural roll, the d20s, the total, and the hit, crit, critical-fail and damage fields, and counting `hits` and `total_damage`.
- `json_reader.dfy` (module `JsonReader`) models `validate` of `lib/json_reader.py`: the required-keys check.
- `wrappers.dfy` holds `Option` and `Result`.

Randomness is an input. Each call of `randint(1, sides)` takes the next value of a supplied sequence. The caller promises only what `randint` promises: the value lies in `[1, sides]`. For the `!attack` command the values come grouped by attack. `AttackDice` holds one attack's d20s, then its damage dice. Attack number `i + 1` takes `rolls[i]`. Damage dice must be supplied only for an attack that hits (`Attack.DamageDrawn`), as the source calls `randint` for damage only then.

The loop is `Attack.RollAttacks`, a `while` loop that keeps `hits` and `total_damage` as running counters. It is proved against `Attack.Batch`, which defines the first `k` iterations as a function. The rules of one iteration are `Attack.Resolve`, and `Attack.AttackOnce` mirrors the source's in-place updates of the `result` record.

Behaviours of the code worth knowing:

- A critical hit deals `count * sides + bonus` plus a fresh `roll_damage(count, sides, bonus)`. The dice count is not doubled, and the flat bonus is counted twice (`lib/roll.py:141-148`).
- A creature count of zero or less rolls no attacks, because `range` yields nothing.
- A negative dice count rolls no dice. Sums and bounds are stated for `count >= 0`.
- An unknown creature, or a default action that the creature's actions lack, is a `KeyError` that escapes the command (`Reply.Raised`). No message is sent.
- The command keeps two counters, `hits` and `total_damage`. Critical hits and critical fails are flags on each result. `CountCrits` and `CountFumbles` exist only to state properties.
- Once the command body has an attack-type string, it checks it against the configured command names, but `roll_attack` compares it with the literals `"standard"` and `"advantage"`. Any other string that passes the check rolls with disadvantage. `Attack.RenamedAdvantageKeepsLower` proves this for every configuration that renames the advantage command. Whether such a string can reach the body depends on the argument conversion, which is not modelled (see "## Left out").
- An omitted attack type defaults to `"standard"` (`cogs/attack.py:73`). If the configured standard command has another name, an omitted type is refused (`Attack.OmittedTypeRefusedWhenRenamed`).

## Model

| member | source | states |
|---|---|---|
| Roll.RollDie | lib/roll.py:20-35 | the die shows a face in `[1, sides]`: the next `randint` value |
| Roll.RollDice | lib/roll.py:61 | `range(count)` dice: none for a negative count; each die is the next draw in order and shows a face of the die |
| Roll.RollDamage | lib/roll.py:38-64 | the rolls are the next `count` draws, each a face of the die; the total is their sum plus the bonus |
| Roll.RollDamageBounds | lib/roll.py:38-64 | for `count >= 0`, a damage roll lies between `count + bonus` and `count * sides + bonus` |
| Roll.SumBounds | lib/roll.py:64 | dice showing faces of a `sides`-sided die sum to between one and `sides` per die |
| Roll.RollAttack | lib/roll.py:67-111 | "standard" takes one d20; every other type takes two; the natural roll is one of the dice and lies in 1..20; the total is natural plus bonus; advantage keeps the highest die; any type other than "standard" and "advantage" keeps the lowest |
| Roll.AdvantageAtLeastDisadvantage | lib/roll.py:104-109 | on the same two d20s, advantage never selects a lower die than disadvantage |
| Roll.CalculateCritDamage | lib/roll.py:114-151 | the extra dice are the next `count` draws; the total is `count * sides` plus their sum plus twice the bonus |
| Roll.CritDamageBounds | lib/roll.py:138-148 | for `count >= 0`, crit damage lies between `count * sides + count + 2 * bonus` and twice the maximum damage |
| Roll.CritExceedsNormalByMaximum | lib/roll.py:138-148 | on the same draws, crit damage equals maximum damage plus normal damage |
| Attack.Lower | cogs/attack.py:112 | lower-casing keeps the length, leaves no upper-case ASCII letter and changes only upper-case letters, each to its lower-case form |
| Attack.LowerIdempotent | cogs/attack.py:112 | lower-casing a name twice gives the key that lower-casing once gives |
| Attack.Prepare | cogs/attack.py:103-130 | an attack type outside the configured names is refused, and only such a type is; an unknown creature raises a `KeyError` for the lower-cased name; a given action missing from the creature's actions is reported by name, and only in that case; a missing default action raises a `KeyError`; otherwise the given action, or the default action when none is given, is used and displayed; the attacks are rolled exactly when every lookup succeeds |
| Attack.RenamedAdvantageKeepsLower | cogs/attack.py:33-38 | for every configuration whose advantage command is named neither "standard" nor "advantage", every bonus and every two d20s, that name passes the body's check yet `roll_attack` keeps the lower d20 |
| Attack.OmittedTypeRefusedWhenRenamed | cogs/attack.py:73 | when "standard" is not a configured command name, a command that omits its attack type is refused with the attack-type message |
| Attack.Resolve | cogs/attack.py:140-194 | one iteration: the result carries the attack's number and its d20s; it hits exactly when the kept d20 is not a 1 and is a 20 or reaches the AC with the bonus; a miss deals 0; damage dice are needed only on a hit |
| Attack.ResolveRules | cogs/attack.py:140-194 | one attack: numbered `num`, using the attack's d20s and keeping the d20 `roll_attack` selects (the higher with advantage, the lower for other non-standard types); a natural 1 is a critical fail that never hits; a natural 20 is a critical hit that always hits and deals crit damage; otherwise it hits exactly when the total reaches the AC and deals rolled damage; a miss deals 0; damage stays within its dice bounds |
| Attack.Batch | cogs/attack.py:138-196 | the first `k` iterations yield exactly `k` results, one per attack, given damage dice only for the attacks that hit |
| Attack.MissNeedsNoDamageDice | cogs/attack.py:158-194 | an attack that misses needs no damage dice at all, whatever its damage die, even one with fewer than one side |
| Attack.BatchAt | cogs/attack.py:138-196 | after `k` iterations, result `i` is the attack of creature `i + 1` on its own dice, unchanged by later iterations |
| Attack.BatchClassified | cogs/attack.py:138-196 | every recorded result is numbered by its position, carries its own d20s, keeps the d20 its attack type selects and follows the rules of one attack |
| Attack.CountHits | cogs/attack.py:135-179 | the number of hits never exceeds the number of attacks |
| Attack.SumDamage | cogs/attack.py:134-194 | the damage total is 0 when every result deals 0, and never negative when no result is |
| Attack.CountsAgree | cogs/attack.py:158-194 | no hits means no damage; crits are among the hits; hits and critical fails together never exceed the attacks |
| Attack.OnlyCritsHit | cogs/attack.py:158-179 | when no total short of a natural 20 reaches the AC, every hit is a critical hit |
| Attack.OnlyFumblesMiss | cogs/attack.py:158-179 | when every total from a natural 2 upwards reaches the AC, every attack that is not a critical fail hits |
| Attack.AttackOnce | cogs/attack.py:140-196 | one loop body: the result is that of the attack rules; `hits` grows by one exactly on a hit and `total_damage` by the damage |
| Attack.RollAttacks | cogs/attack.py:132-196 | the loop yields the results of attacks `1..num_creatures` in order, none for a count of zero or less, and `hits` and `total_damage` are their hit count and damage sum |
| Attack.AttackCommand | cogs/attack.py:95-196 | the command refuses, or raises, exactly as `Prepare` decides; otherwise it rolls with the chosen action, displays its name, and reports the loop's results and counters |
| JsonReader.MissingKeyMessage | lib/json_reader.py:66 | the error text is the fixed prefix, the key, and a closing quote |
| JsonReader.MessageNamesKey | lib/json_reader.py:66 | two missing-key errors are equal only when they name the same key |
| JsonReader.FirstMissing | lib/json_reader.py:64-66 | none is missing exactly when every key is in the config; otherwise the result is a missing key and every key checked before it is present |
| JsonReader.Validate | lib/json_reader.py:43-68 | succeeds with `true` exactly when `api_tokens`, `commands` and `attacks` are all keys; otherwise fails with the error for the first missing one, in that order |
| JsonReader.FirstMissingOnlyMembership | lib/json_reader.py:64-66 | the check depends only on whether each required key is present |
| JsonReader.ValidateOnlyRequiredKeys | lib/json_reader.py:62-68 | two configs with the same required keys get the same verdict, whatever their values and other keys |
| JsonReader.ExtraKeysKeepValid | lib/json_reader.py:62-68 | adding keys to a valid config keeps it valid |

## Left out

- The Discord side of the command: the embed, its fields, the `DISPLAY_LIMIT` truncation and `ctx.send` (`cogs/attack.py:198-282`). Messages are reduced to the `Reply` cases.
- The `breakdown` strings of `roll_damage`'s caller and of `calculate_crit_damage`. Only their numbers are modelled.
- The uniform distribution of `randint`. The model allows every value the dice can show, with no probabilities.
- `randint`'s `ValueError` for `sides < 1`. A run in which an attack hits with a damage die of `count >= 1` and `sides < 1` has no admissible damage dice, so it is outside the model. Runs in which every such attack misses are modelled. So are hits with `count <= 0`, which call `randint` for no damage die.
- The global order of `randint` calls across attacks. Each attack's values are supplied as a group, with its d20s before its damage dice, which are required only when the attack hits. Every sequence of values the bot can draw without a `ValueError` corresponds to some grouping, so the reachable outcomes are the same.
- Attack.Lower: models `str.lower()` on ASCII letters only. Other Unicode case mappings are not modelled.
- The shape of the creature data (`count`, `sides`, `bonus`, `attack_bonus`, `default_action` present with integer or string values) is taken as given. A `KeyError` or `TypeError` from a malformed creature entry is not modelled.
- discord.py's conversion of the command arguments before the body runs is not modelled. This covers the `AttackType` annotation of `attack_type` (`cogs/attack.py:73`), an alias of a `Literal` of three words, and the `int` conversions of `num_creatures` and `target_ac`. In the model `attackType` ranges over every string and the two numbers over every integer, so some strings the model accepts may never reach the body.
- `json_reader.read` is file I/O and JSON parsing.
- `validate` does not modify its argument. This holds by construction, since the model is a function.
- `lib/settings.py` (loading the configuration and the Discord token) and `dnd_roller.py` (bot start-up) are not part of this model. The configured attack command names are the parameter `AttackCommands`.
