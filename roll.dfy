/**
 * Die semantics of the bot (lib/roll.py).
 *
 * Every call of `randint(1, sides)` is modelled as taking the next value of a
 * supplied sequence `draws`; the caller promises, through `Drawn`, that each
 * value it will take lies in [1, sides], which is all `randint` guarantees.
 * Each function states which prefix of `draws` it consumes, so a caller can
 * pass the rest on to the next roll.
 */
module Roll {

  const CRITICAL_HIT: int := 20
  const CRITICAL_MISS: int := 1
  const D20_SIDES: int := 20

  /** The next `n` draws exist and each is a face of a die with `sides` sides. */
  predicate Drawn(draws: seq<int>, n: nat, sides: int)
  {
    n <= |draws| && forall i :: 0 <= i < n ==> 1 <= draws[i] <= sides
  }

  /** Every element of `s` is a face of a die with `sides` sides. */
  predicate Faces(s: seq<int>, sides: int)
  {
    forall i :: 0 <= i < |s| ==> 1 <= s[i] <= sides
  }

  function Sum(s: seq<int>): int
  {
    if s == [] then 0 else s[0] + Sum(s[1..])
  }

  function Max(a: int, b: int): int { if a >= b then a else b }

  function Min(a: int, b: int): int { if a <= b then a else b }

  /** Number of iterations of Python's `range(count)`: negative counts give none. */
  function DiceCount(count: int): nat
  {
    if count < 0 then 0 else count
  }

  /** `roll_die`: one `randint(1, sides)`, the next draw. */
  function RollDie(sides: int, draws: seq<int>): (r: int)
    requires Drawn(draws, 1, sides)
    ensures 1 <= r <= sides
    ensures r == draws[0]
  {
    draws[0]
  }

  /** The list comprehension of `roll_damage`: `count` dice, taken in draw order. */
  function RollDice(count: int, sides: int, draws: seq<int>): (rolls: seq<int>)
    requires Drawn(draws, DiceCount(count), sides)
    ensures |rolls| == DiceCount(count)
    ensures rolls == draws[..DiceCount(count)]
    ensures Faces(rolls, sides)
    decreases DiceCount(count)
  {
    if count <= 0 then []
    else [RollDie(sides, draws)] + RollDice(count - 1, sides, draws[1..])
  }

  /** Result of `roll_damage`: the total and the individual dice. */
  datatype DamageRoll = DamageRoll(total: int, rolls: seq<int>)

  /** `roll_damage(count, sides, bonus)`. */
  function RollDamage(count: int, sides: int, bonus: int, draws: seq<int>): (d: DamageRoll)
    requires Drawn(draws, DiceCount(count), sides)
    ensures |d.rolls| == DiceCount(count) && d.rolls == draws[..DiceCount(count)]
    ensures Faces(d.rolls, sides)
    ensures d.total == Sum(d.rolls) + bonus
  {
    var rolls := RollDice(count, sides, draws);
    DamageRoll(Sum(rolls) + bonus, rolls)
  }

  /** A damage roll lies between one and `sides` per die, plus the bonus. */
  lemma RollDamageBounds(count: int, sides: int, bonus: int, draws: seq<int>)
    requires Drawn(draws, DiceCount(count), sides)
    ensures var d := RollDamage(count, sides, bonus, draws);
            count >= 0 ==> count + bonus <= d.total <= count * sides + bonus
  {
    SumBounds(RollDamage(count, sides, bonus, draws).rolls, sides);
  }

  /** Number of d20s `roll_attack` draws for an attack type. */
  function D20Count(attackType: string): nat
  {
    if attackType == "standard" then 1 else 2
  }

  /** Result of `roll_attack`: the selected d20, the attack total and every d20 drawn. */
  datatype AttackRoll = AttackRoll(natural: int, total: int, dice: seq<int>)

  /**
   * `roll_attack(attack_bonus, attack_type)`. The type is compared with the
   * literals "standard" and "advantage"; every other string rolls with
   * disadvantage.
   */
  function RollAttack(attackBonus: int, attackType: string, draws: seq<int>): (a: AttackRoll)
    requires Drawn(draws, D20Count(attackType), D20_SIDES)
    ensures a.dice == draws[..D20Count(attackType)]
    ensures a.natural in a.dice && 1 <= a.natural <= D20_SIDES
    ensures a.total == a.natural + attackBonus
    ensures attackType == "advantage" ==> forall d :: d in a.dice ==> d <= a.natural
    ensures attackType != "standard" && attackType != "advantage" ==>
              forall d :: d in a.dice ==> a.natural <= d
  {
    var roll1 := RollDie(D20_SIDES, draws);
    if attackType == "standard" then
      AttackRoll(roll1, roll1 + attackBonus, [roll1])
    else
      var roll2 := RollDie(D20_SIDES, draws[1..]);
      var selected := if attackType == "advantage" then Max(roll1, roll2) else Min(roll1, roll2);
      AttackRoll(selected, selected + attackBonus, [roll1, roll2])
  }

  /** Numeric result of `calculate_crit_damage`: the total and the extra dice rolled. */
  datatype CritRoll = CritRoll(total: int, extraRolls: seq<int>)

  /**
   * `calculate_crit_damage(count, sides, bonus)`: the maximum of the damage
   * roll plus one more damage roll. The dice count is not doubled, so the
   * flat bonus is added twice.
   */
  function CalculateCritDamage(count: int, sides: int, bonus: int, draws: seq<int>): (c: CritRoll)
    requires Drawn(draws, DiceCount(count), sides)
    ensures c.extraRolls == draws[..DiceCount(count)] && Faces(c.extraRolls, sides)
    ensures c.total == count * sides + Sum(c.extraRolls) + 2 * bonus
  {
    var maxDamage := count * sides + bonus;
    var extra := RollDamage(count, sides, bonus, draws);
    CritRoll(maxDamage + extra.total, extra.rolls)
  }

  /** Dice faces sum to between one and `sides` per die. */
  lemma {:induction false} SumBounds(s: seq<int>, sides: int)
    requires Faces(s, sides)
    ensures |s| <= Sum(s) <= |s| * sides
  {
    if s != [] {
      SumBounds(s[1..], sides);
      assert Sum(s) == s[0] + Sum(s[1..]);
      assert (|s| - 1) * sides + sides == |s| * sides;
    }
  }

  /** A critical hit deals at least the maximum plus one per die and at most twice the maximum. */
  lemma CritDamageBounds(count: int, sides: int, bonus: int, draws: seq<int>)
    requires Drawn(draws, DiceCount(count), sides)
    ensures var c := CalculateCritDamage(count, sides, bonus, draws);
            count >= 0 ==> count * sides + count + 2 * bonus <= c.total <= 2 * count * sides + 2 * bonus
  {
    var c := CalculateCritDamage(count, sides, bonus, draws);
    SumBounds(c.extraRolls, sides);
  }

  /** On the same draws, a critical hit exceeds a normal hit by exactly the maximum damage. */
  lemma CritExceedsNormalByMaximum(count: int, sides: int, bonus: int, draws: seq<int>)
    requires Drawn(draws, DiceCount(count), sides)
    ensures CalculateCritDamage(count, sides, bonus, draws).total
            == count * sides + bonus + RollDamage(count, sides, bonus, draws).total
  {
  }

  /** On the same draws, advantage never selects a lower d20 than disadvantage. */
  lemma AdvantageAtLeastDisadvantage(attackBonus: int, draws: seq<int>)
    requires Drawn(draws, 2, D20_SIDES)
    ensures RollAttack(attackBonus, "disadvantage", draws).natural
            <= RollAttack(attackBonus, "advantage", draws).natural
  {
  }
}
