/**
 * The `attack` command of the attack cog (cogs/attack.py): validation of the
 * attack type and the action, then one attack per creature, classified as
 * critical fail, critical hit, hit or miss against the target AC, while the
 * hits and the total damage are counted.
 */
module Attack {

  import opened Wrappers
  import opened Roll

  const CRITICAL_HIT_ROLL: int := 20
  const CRITICAL_MISS_ROLL: int := 1

  /** The attack type of a command that does not give one. */
  const DEFAULT_ATTACK_TYPE: string := "standard"

  /** The `damage` entry of an action: `count` dice of `sides` sides plus `bonus`. */
  datatype DamageSpec = DamageSpec(count: int, sides: int, bonus: int)

  /** One entry of a creature's `actions`. */
  datatype Action = Action(attackBonus: int, damage: DamageSpec)

  /** One entry of the creature table loaded from configuration. */
  datatype Creature = Creature(defaultAction: string, actions: map<string, Action>)

  /** The configured command names of the three attack types. */
  datatype AttackCommands = AttackCommands(standard: string, advantage: string, disadvantage: string)

  function ValidAttackTypes(cmds: AttackCommands): set<string>
  {
    {cmds.standard, cmds.advantage, cmds.disadvantage}
  }

  /** The per-attack `result` record, without its display-only breakdown. */
  datatype AttackResult = AttackResult(
    num: int, natRoll: int, dice: seq<int>, total: int,
    hit: bool, crit: bool, critFail: bool, damage: int)

  /** What the command ends with. */
  datatype Reply =
    | BadAttackType                  // the "Attack type must be ..." message
    | UnknownAction(name: string)    // the "Action ... not found ..." message
    | Raised(key: string)            // a KeyError escapes the command; nothing is sent
    | Rolled(actionDisplay: string, results: seq<AttackResult>, hits: int, totalDamage: int)

  function LowerChar(c: char): char
  {
    if 'A' <= c <= 'Z' then (c as int + 32) as char else c
  }

  /** `str.lower()` on ASCII letters. */
  function Lower(s: string): (r: string)
    ensures |r| == |s|
    ensures forall i :: 0 <= i < |r| ==> !('A' <= r[i] <= 'Z')
    ensures forall i :: 0 <= i < |r| ==>
              r[i] == s[i] || ('A' <= s[i] <= 'Z' && r[i] as int == s[i] as int + 32)
  {
    if s == [] then [] else [LowerChar(s[0])] + Lower(s[1..])
  }

  /** Lower-casing a creature name twice looks up the same key as once. */
  lemma {:induction false} LowerIdempotent(s: string)
    ensures Lower(Lower(s)) == Lower(s)
  {
    if s != [] {
      LowerIdempotent(s[1..]);
      assert Lower(s)[1..] == Lower(s[1..]);
    }
  }

  /** `if action_name:` is false for both None and the empty string. */
  predicate Given(actionName: Option<string>)
  {
    actionName.Some? && actionName.value != ""
  }

  /** Outcome of the checks that precede the rolls. */
  datatype Prepared = Refused(reply: Reply) | Ready(actionDisplay: string, action: Action)

  /** The attack-type check, the creature lookup and the choice of action. */
  function Prepare(cmds: AttackCommands, creatures: map<string, Creature>, creatureName: string,
                   attackType: string, actionName: Option<string>): (p: Prepared)
    ensures p == Refused(BadAttackType) <==> attackType !in ValidAttackTypes(cmds)
    ensures attackType in ValidAttackTypes(cmds) && Lower(creatureName) !in creatures ==>
              p == Refused(Raised(Lower(creatureName)))
    ensures p.Refused? && p.reply.UnknownAction? <==>
              attackType in ValidAttackTypes(cmds) && Lower(creatureName) in creatures &&
              Given(actionName) && actionName.value !in creatures[Lower(creatureName)].actions
    ensures p.Refused? && p.reply.UnknownAction? ==> p.reply.name == actionName.value
    ensures attackType in ValidAttackTypes(cmds) && Lower(creatureName) in creatures && !Given(actionName)
            && creatures[Lower(creatureName)].defaultAction !in creatures[Lower(creatureName)].actions ==>
              p == Refused(Raised(creatures[Lower(creatureName)].defaultAction))
    ensures p.Ready? <==>
              && attackType in ValidAttackTypes(cmds) && Lower(creatureName) in creatures
              && var creature := creatures[Lower(creatureName)];
              && (if Given(actionName) then actionName.value else creature.defaultAction) in creature.actions
    ensures p.Ready? ==>
              && attackType in ValidAttackTypes(cmds) && Lower(creatureName) in creatures
              && var creature := creatures[Lower(creatureName)];
              && p.actionDisplay in creature.actions
              && p.action == creature.actions[p.actionDisplay]
              && p.actionDisplay == (if Given(actionName) then actionName.value else creature.defaultAction)
  {
    if attackType !in ValidAttackTypes(cmds) then Refused(BadAttackType)
    else if Lower(creatureName) !in creatures then Refused(Raised(Lower(creatureName)))
    else
      var creature := creatures[Lower(creatureName)];
      if Given(actionName) then
        if actionName.value !in creature.actions then Refused(UnknownAction(actionName.value))
        else Ready(actionName.value, creature.actions[actionName.value])
      else if creature.defaultAction !in creature.actions then Refused(Raised(creature.defaultAction))
      else Ready(creature.defaultAction, creature.actions[creature.defaultAction])
  }

  /**
   * What the loop records for one attack: the d20 kept by the attack type
   * (the higher of two with advantage, the lower of two for every other type
   * but "standard"), the total, and the outcome flags.
   */
  predicate Classified(r: AttackResult, action: Action, attackType: string, targetAc: int)
  {
    && |r.dice| == D20Count(attackType)
    && 1 <= r.natRoll <= D20_SIDES && r.natRoll in r.dice
    && (attackType == "advantage" ==> forall d :: d in r.dice ==> d <= r.natRoll)
    && (attackType != "standard" && attackType != "advantage" ==> forall d :: d in r.dice ==> r.natRoll <= d)
    && r.total == r.natRoll + action.attackBonus
    && (r.critFail <==> r.natRoll == CRITICAL_MISS_ROLL)
    && (r.crit <==> r.natRoll == CRITICAL_HIT_ROLL)
    && (r.hit <==> r.natRoll != CRITICAL_MISS_ROLL && (r.natRoll == CRITICAL_HIT_ROLL || r.total >= targetAc))
    && (!r.hit ==> r.damage == 0)
  }

  /** The damage of a hit lies within the bounds of its dice. */
  predicate DamageBounded(r: AttackResult, action: Action)
  {
    var d := action.damage;
    && (r.hit && !r.crit && d.count >= 0 ==> d.count + d.bonus <= r.damage <= d.count * d.sides + d.bonus)
    && (r.crit && d.count >= 0 ==>
          d.count * d.sides + d.count + 2 * d.bonus <= r.damage <= 2 * d.count * d.sides + 2 * d.bonus)
  }

  /** Whether the attack on these d20s hits: never on a natural 1, always on a natural 20, else by the AC. */
  predicate Hits(action: Action, attackType: string, targetAc: int, d20s: seq<int>)
    requires Drawn(d20s, D20Count(attackType), D20_SIDES)
  {
    var a := RollAttack(action.attackBonus, attackType, d20s);
    a.natural != CRITICAL_MISS_ROLL && (a.natural == CRITICAL_HIT_ROLL || a.total >= targetAc)
  }

  /** The damage dice an attack needs: a full set when it hits, none when it misses. */
  predicate DamageDrawn(action: Action, attackType: string, targetAc: int, d20s: seq<int>, dice: seq<int>)
    requires Drawn(d20s, D20Count(attackType), D20_SIDES)
  {
    Hits(action, attackType, targetAc, d20s) ==> Drawn(dice, DiceCount(action.damage.count), action.damage.sides)
  }

  /** An attack that misses rolls no damage, so it needs no damage dice, whatever its damage die. */
  lemma MissNeedsNoDamageDice(action: Action, attackType: string, targetAc: int, d20s: seq<int>)
    requires Drawn(d20s, D20Count(attackType), D20_SIDES)
    requires !Hits(action, attackType, targetAc, d20s)
    ensures DamageDrawn(action, attackType, targetAc, d20s, [])
    ensures Resolve(1, action, attackType, targetAc, d20s, []).damage == 0
  {
  }

  /**
   * One iteration of the loop: the attack of creature number `num`, its d20s
   * taken from `d20s` and its damage dice, if it hits, from `dice`.
   */
  function Resolve(num: int, action: Action, attackType: string, targetAc: int,
                   d20s: seq<int>, dice: seq<int>): (r: AttackResult)
    requires Drawn(d20s, D20Count(attackType), D20_SIDES)
    requires DamageDrawn(action, attackType, targetAc, d20s, dice)
    ensures r.num == num && r.dice == d20s[..D20Count(attackType)]
    ensures r.hit <==> Hits(action, attackType, targetAc, d20s)
    ensures !r.hit ==> r.damage == 0
  {
    var a := RollAttack(action.attackBonus, attackType, d20s);
    var d := action.damage;
    var miss := AttackResult(num, a.natural, a.dice, a.total, false, false, false, 0);
    if a.natural == CRITICAL_MISS_ROLL then
      miss.(critFail := true)
    else if a.natural == CRITICAL_HIT_ROLL then
      var c := CalculateCritDamage(d.count, d.sides, d.bonus, dice);
      miss.(crit := true, hit := true, damage := c.total)
    else if a.total >= targetAc then
      var n := RollDamage(d.count, d.sides, d.bonus, dice);
      miss.(hit := true, damage := n.total)
    else
      miss
  }

  /**
   * The rules of one attack: a natural 1 is a critical fail that never hits,
   * whatever the total; otherwise a natural 20 is a critical hit that always
   * hits and deals critical damage; otherwise the attack hits exactly when its
   * total reaches the AC and then deals rolled damage. A miss deals nothing.
   */
  lemma ResolveRules(num: int, action: Action, attackType: string, targetAc: int, d20s: seq<int>, dice: seq<int>)
    requires Drawn(d20s, D20Count(attackType), D20_SIDES)
    requires DamageDrawn(action, attackType, targetAc, d20s, dice)
    ensures var r := Resolve(num, action, attackType, targetAc, d20s, dice);
            var d := action.damage;
            && r.num == num
            && r.natRoll == RollAttack(action.attackBonus, attackType, d20s).natural
            && r.dice == d20s[..D20Count(attackType)]
            && Classified(r, action, attackType, targetAc)
            && (r.crit ==> r.damage == CalculateCritDamage(d.count, d.sides, d.bonus, dice).total)
            && (r.hit && !r.crit ==>
                  r.damage == RollDamage(d.count, d.sides, d.bonus, dice).total)
            && DamageBounded(r, action)
  {
    var d := action.damage;
    var a := RollAttack(action.attackBonus, attackType, d20s);
    if a.natural == CRITICAL_HIT_ROLL {
      CritDamageBounds(d.count, d.sides, d.bonus, dice);
    } else if a.natural != CRITICAL_MISS_ROLL && a.total >= targetAc {
      RollDamageBounds(d.count, d.sides, d.bonus, dice);
    }
  }

  /**
   * The values `randint` returns during one attack: its d20s, then its
   * damage dice (used only when the attack hits).
   */
  datatype AttackDice = AttackDice(d20s: seq<int>, damage: seq<int>)

  /**
   * The dice one attack rolls exist and lie on the faces of their dice:
   * its d20s always, its damage dice only when it hits.
   */
  predicate DiceFor(action: Action, attackType: string, targetAc: int, dice: AttackDice)
  {
    && Drawn(dice.d20s, D20Count(attackType), D20_SIDES)
    && DamageDrawn(action, attackType, targetAc, dice.d20s, dice.damage)
  }

  /** Dice for each of `n` attacks. */
  predicate Supplied(action: Action, attackType: string, targetAc: int, n: nat, rolls: seq<AttackDice>)
  {
    n <= |rolls| && forall i :: 0 <= i < n ==> DiceFor(action, attackType, targetAc, rolls[i])
  }

  /** The first `k` iterations of the loop: attacks numbered 1 to `k`, in order. */
  function Batch(action: Action, attackType: string, targetAc: int, k: nat, rolls: seq<AttackDice>)
    : (results: seq<AttackResult>)
    requires Supplied(action, attackType, targetAc, k, rolls)
    ensures |results| == k
  {
    if k == 0 then []
    else
      Batch(action, attackType, targetAc, k - 1, rolls)
      + [Resolve(k, action, attackType, targetAc, rolls[k - 1].d20s, rolls[k - 1].damage)]
  }

  /** Attack number `i + 1` is the one that rolled `rolls[i]`; later iterations leave it alone. */
  lemma {:induction false} BatchAt(action: Action, attackType: string, targetAc: int, k: nat,
                                   rolls: seq<AttackDice>, i: nat)
    requires Supplied(action, attackType, targetAc, k, rolls)
    requires i < k
    ensures Batch(action, attackType, targetAc, k, rolls)[i]
            == Resolve(i + 1, action, attackType, targetAc, rolls[i].d20s, rolls[i].damage)
  {
    if i < k - 1 {
      BatchAt(action, attackType, targetAc, k - 1, rolls, i);
    }
  }

  /** Results are numbered 1, 2, ... in loop order and each follows the rules of one attack. */
  lemma BatchClassified(action: Action, attackType: string, targetAc: int, k: nat,
                        rolls: seq<AttackDice>)
    requires Supplied(action, attackType, targetAc, k, rolls)
    ensures var results := Batch(action, attackType, targetAc, k, rolls);
            forall i :: 0 <= i < k ==>
              && results[i].num == i + 1
              && results[i].dice == rolls[i].d20s[..D20Count(attackType)]
              && Classified(results[i], action, attackType, targetAc)
              && DamageBounded(results[i], action)
  {
    var results := Batch(action, attackType, targetAc, k, rolls);
    forall i | 0 <= i < k
      ensures && results[i].num == i + 1
              && results[i].dice == rolls[i].d20s[..D20Count(attackType)]
              && Classified(results[i], action, attackType, targetAc)
              && DamageBounded(results[i], action)
    {
      BatchAt(action, attackType, targetAc, k, rolls, i);
      ResolveRules(i + 1, action, attackType, targetAc, rolls[i].d20s, rolls[i].damage);
    }
  }

  /** Number of results with `hit` set. */
  function CountHits(results: seq<AttackResult>): (h: nat)
    ensures h <= |results|
  {
    if results == [] then 0
    else CountHits(results[..|results| - 1]) + (if results[|results| - 1].hit then 1 else 0)
  }

  /** Sum of the `damage` fields: what `total_damage` adds up. */
  function SumDamage(results: seq<AttackResult>): (t: int)
    ensures (forall i :: 0 <= i < |results| ==> results[i].damage == 0) ==> t == 0
    ensures (forall i :: 0 <= i < |results| ==> results[i].damage >= 0) ==> t >= 0
  {
    if results == [] then 0
    else SumDamage(results[..|results| - 1]) + results[|results| - 1].damage
  }

  /** Number of results with `crit` set. */
  function CountCrits(results: seq<AttackResult>): (c: nat)
    ensures c <= |results|
  {
    if results == [] then 0
    else CountCrits(results[..|results| - 1]) + (if results[|results| - 1].crit then 1 else 0)
  }

  /** Number of results with `crit_fail` set. */
  function CountFumbles(results: seq<AttackResult>): (f: nat)
    ensures f <= |results|
  {
    if results == [] then 0
    else CountFumbles(results[..|results| - 1]) + (if results[|results| - 1].critFail then 1 else 0)
  }

  /** Every result of the loop follows the rules of one attack. */
  predicate AllClassified(results: seq<AttackResult>, action: Action, attackType: string, targetAc: int)
  {
    forall i :: 0 <= i < |results| ==> Classified(results[i], action, attackType, targetAc)
  }

  /** A command with no hits deals no damage; hits, crits and fumbles fit in the number of attacks. */
  lemma {:induction false} CountsAgree(results: seq<AttackResult>, action: Action, attackType: string,
                                    targetAc: int)
    requires AllClassified(results, action, attackType, targetAc)
    ensures CountHits(results) == 0 ==> SumDamage(results) == 0
    ensures CountCrits(results) <= CountHits(results)
    ensures CountHits(results) + CountFumbles(results) <= |results|
  {
    if results != [] {
      CountsAgree(results[..|results| - 1], action, attackType, targetAc);
    }
  }

  /**
   * When no total short of a natural 20 reaches the AC, the only hits are
   * the critical hits.
   */
  lemma {:induction false} OnlyCritsHit(results: seq<AttackResult>, action: Action, attackType: string,
                                    targetAc: int)
    requires AllClassified(results, action, attackType, targetAc)
    requires targetAc > CRITICAL_HIT_ROLL - 1 + action.attackBonus
    ensures CountHits(results) == CountCrits(results)
  {
    if results != [] {
      OnlyCritsHit(results[..|results| - 1], action, attackType, targetAc);
    }
  }

  /**
   * When every total from a natural 2 upwards reaches the AC, every attack
   * that is not a critical fail hits.
   */
  lemma {:induction false} OnlyFumblesMiss(results: seq<AttackResult>, action: Action, attackType: string,
                                    targetAc: int)
    requires AllClassified(results, action, attackType, targetAc)
    requires targetAc <= CRITICAL_MISS_ROLL + 1 + action.attackBonus
    ensures CountHits(results) + CountFumbles(results) == |results|
  {
    if results != [] {
      OnlyFumblesMiss(results[..|results| - 1], action, attackType, targetAc);
    }
  }

  /**
   * Once the command body has an attack-type string, it checks it against the
   * configured command names, but the roll follows the literal names: an
   * advantage command renamed to anything but "standard" or "advantage"
   * passes the check and then keeps the lower of its two d20s.
   */
  lemma RenamedAdvantageKeepsLower(cmds: AttackCommands, attackBonus: int, draws: seq<int>)
    requires cmds.advantage != "standard" && cmds.advantage != "advantage"
    requires Drawn(draws, 2, D20_SIDES)
    ensures cmds.advantage in ValidAttackTypes(cmds)
    ensures RollAttack(attackBonus, cmds.advantage, draws).natural == Min(draws[0], draws[1])
  {
    var a := RollAttack(attackBonus, cmds.advantage, draws);
    assert a.dice == [draws[0], draws[1]];
  }

  /**
   * The attack type defaults to "standard" when the command omits it; with
   * the standard command renamed, an omitted attack type is refused.
   */
  lemma OmittedTypeRefusedWhenRenamed(cmds: AttackCommands, creatures: map<string, Creature>,
                                      creatureName: string, actionName: Option<string>)
    requires DEFAULT_ATTACK_TYPE !in ValidAttackTypes(cmds)
    ensures Prepare(cmds, creatures, creatureName, DEFAULT_ATTACK_TYPE, actionName) == Refused(BadAttackType)
  {
  }

  /** The dice every attack of the command rolls exist and lie on the faces of their dice. */
  predicate CommandSupplied(cmds: AttackCommands, creatures: map<string, Creature>, creatureName: string,
                            numCreatures: int, targetAc: int, attackType: string,
                            actionName: Option<string>, rolls: seq<AttackDice>)
  {
    var p := Prepare(cmds, creatures, creatureName, attackType, actionName);
    p.Ready? ==> Supplied(p.action, attackType, targetAc, DiceCount(numCreatures), rolls)
  }

  /**
   * `AttackCog.attack` up to the point where the embed is built: the checks,
   * then the loop. Attack number `i + 1` rolls the dice `rolls[i]`.
   */
  method AttackCommand(cmds: AttackCommands, creatures: map<string, Creature>, creatureName: string,
                       numCreatures: int, targetAc: int, attackType: string,
                       actionName: Option<string>, rolls: seq<AttackDice>)
    returns (reply: Reply)
    requires CommandSupplied(cmds, creatures, creatureName, numCreatures, targetAc, attackType, actionName, rolls)
    ensures var p := Prepare(cmds, creatures, creatureName, attackType, actionName);
            && (p.Refused? ==> reply == p.reply)
            && (p.Ready? ==>
                  && reply.Rolled?
                  && reply.actionDisplay == p.actionDisplay
                  && reply.results == Batch(p.action, attackType, targetAc, DiceCount(numCreatures), rolls)
                  && reply.hits == CountHits(reply.results)
                  && reply.totalDamage == SumDamage(reply.results))
  {
    if attackType !in ValidAttackTypes(cmds) {
      return BadAttackType;
    }
    if Lower(creatureName) !in creatures {
      return Raised(Lower(creatureName));
    }
    var creature := creatures[Lower(creatureName)];
    var name: string;
    if Given(actionName) {
      if actionName.value !in creature.actions {
        return UnknownAction(actionName.value);
      }
      name := actionName.value;
    } else {
      name := creature.defaultAction;
      if name !in creature.actions {
        return Raised(name);
      }
    }
    var action := creature.actions[name];
    var results, hits, totalDamage := RollAttacks(action, attackType, targetAc, numCreatures, rolls);
    return Rolled(name, results, hits, totalDamage);
  }

  /**
   * The `for i in range(num_creatures)` loop of `AttackCog.attack`: one attack
   * per creature, with the running `hits` and `total_damage`.
   */
  method RollAttacks(action: Action, attackType: string, targetAc: int, numCreatures: int,
                     rolls: seq<AttackDice>)
    returns (results: seq<AttackResult>, hits: int, totalDamage: int)
    requires Supplied(action, attackType, targetAc, DiceCount(numCreatures), rolls)
    ensures results == Batch(action, attackType, targetAc, DiceCount(numCreatures), rolls)
    ensures hits == CountHits(results) && totalDamage == SumDamage(results)
  {
    results, totalDamage, hits := [], 0, 0;
    var i := 0;
    while i < numCreatures
      invariant 0 <= i <= DiceCount(numCreatures)
      invariant results == Batch(action, attackType, targetAc, i, rolls)
      invariant hits == CountHits(results)
      invariant totalDamage == SumDamage(results)
    {
      var result;
      result, hits, totalDamage := AttackOnce(i + 1, action, attackType, targetAc, rolls[i], hits, totalDamage);
      assert (results + [result])[..|results|] == results;
      results := results + [result];
      i := i + 1;
    }
    assert i == DiceCount(numCreatures);
  }

  /**
   * The body of that loop: roll the attack, build the `result` record,
   * classify it and roll its damage, updating the counters.
   */
  method AttackOnce(num: int, action: Action, attackType: string, targetAc: int, dice: AttackDice,
                    hits: int, totalDamage: int)
    returns (result: AttackResult, hits': int, totalDamage': int)
    requires DiceFor(action, attackType, targetAc, dice)
    ensures result == Resolve(num, action, attackType, targetAc, dice.d20s, dice.damage)
    ensures hits' == hits + (if result.hit then 1 else 0)
    ensures totalDamage' == totalDamage + result.damage
  {
    var d := action.damage;
    var attack := RollAttack(action.attackBonus, attackType, dice.d20s);
    hits', totalDamage' := hits, totalDamage;
    result := AttackResult(num, attack.natural, attack.dice, attack.total, false, false, false, 0);
    if attack.natural == CRITICAL_MISS_ROLL {
      result := result.(critFail := true);
    } else if attack.natural == CRITICAL_HIT_ROLL {
      result := result.(crit := true);
      result := result.(hit := true);
      hits' := hits' + 1;
      var crit := CalculateCritDamage(d.count, d.sides, d.bonus, dice.damage);
      result := result.(damage := crit.total);
      totalDamage' := totalDamage' + crit.total;
    } else if attack.total >= targetAc {
      result := result.(hit := true);
      hits' := hits' + 1;
      var dmg := RollDamage(d.count, d.sides, d.bonus, dice.damage);
      result := result.(damage := dmg.total);
      totalDamage' := totalDamage' + dmg.total;
    }
  }
}
