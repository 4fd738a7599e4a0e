/** Which associations audioBuildTree can trace: it takes them in turn, each in
    the state the earlier ones left. */
module AssociationTurns {
  import opened HdaGraph
  import opened OutputTrace
  import opened OutputAssociation
  import opened InputTrace

  /** An association as audioAssociationParse leaves it. */
  predicate AssocReady(asc: Assoc)
  {
    AssocOk(asc) && -1 <= asc.hpredir < PINS && !asc.fakeredir && forall s :: 0 <= s < PINS ==> asc.dacs[s] == 0
  }

  function Faked(as0: seq<Assoc>, a: nat): (as1: seq<Assoc>)
    requires a < |as0| && AssocOk(as0[a])
    ensures |as1| == |as0| && AssocOk(as1[a]) && as1[a].hpredir == as0[a].hpredir
  {
    as0[a := as0[a].(fakeredir := true)]
  }

  /** All pins can be given DACs when the jack gets one of its own. */
  ghost predicate AssignableFaked(ws: seq<Widget>, as0: seq<Assoc>, a: nat)
    requires a < |as0| && AssocReady(as0[a])
  {
    as0[a].hpredir >= 0 && Assignable(ws, Faked(as0, a), a, 0)
  }

  /** Without user patches an output association gets the least assignment, by
      real redirection if there is one, else by fake redirection; and none
      exactly when there is neither. */
  ghost predicate OutDecided(ws: seq<Widget>, as0: seq<Assoc>, a: nat, ok: bool, ws': seq<Widget>, as': seq<Assoc>)
    requires a < |as0| && AssocReady(as0[a])
  {
    if Assignable(ws, as0, a, 0) then ok && LeastAssignment(ws, as0, a, 0, ws', as')
    else if AssignableFaked(ws, as0, a) then ok && LeastAssignment(ws, Faked(as0, a), a, 0, ws', as')
    else !ok
  }

  /** Only unbound widgets have changed, and only to join association a. */
  ghost predicate Taken(ws: seq<Widget>, ws': seq<Widget>, a: int)
  {
    && |ws'| == |ws|
    && forall n :: 0 <= n < |ws| && ws'[n] != ws[n] ==>
         ws[n].enable && ws[n].bindAssoc < 0 && SameStructure(ws[n], ws'[n]) && ws'[n].bindAssoc in {a, -1}
  }

  /** What the turn of association a makes of the widgets and associations. */
  ghost predicate TurnTaken(ws: seq<Widget>, as0: seq<Assoc>, a: nat, ws': seq<Widget>, as': seq<Assoc>)
    requires a < |as0| && AssocReady(as0[a])
  {
    && |as'| == |as0| && as' == as0[a := as'[a]] && Taken(ws, ws', a)
    && (Unpatched(ws) ==> Unpatched(ws'))
    && (!as'[a].enable ==>
          Undone(ws, ws') && as' == as0[a := as0[a].(fakeredir := as'[a].fakeredir, enable := false)])
    && (as0[a].enable && as0[a].dir == Out && Unpatched(ws) ==> OutDecided(ws, as0, a, as'[a].enable, ws', as'))
    && (as0[a].enable && as0[a].dir == In ==>
          InputTraced(ws, as0, a, as'[a].enable, ws', if as'[a].enable then as' else as0))
    && (as'[a].enable ==> as0[a].enable)
  }

  /** Association a can be traced from this state. */
  ghost predicate Traceable(ws: seq<Widget>, as0: seq<Assoc>, a: nat)
    requires a < |as0| && AssocReady(as0[a])
  {
    if as0[a].dir == Out then
      Assignable(ws, as0, a, 0) || AssignableFaked(ws, as0, a)
    else
      exists adc :: Candidate(View(ws, a), adc) && JoinsAll(View(ws, a), as0[a].pins, adc)
  }

  lemma TakenTraceable(ws: seq<Widget>, as0: seq<Assoc>, a: nat, ws': seq<Widget>, as': seq<Assoc>)
    requires a < |as0| && AssocReady(as0[a]) && TurnTaken(ws, as0, a, ws', as')
    requires as0[a].dir == Out ==> Unpatched(ws)
    ensures as'[a].enable <==> as0[a].enable && Traceable(ws, as0, a)
  {
  }

  // ----- All turns -----

  datatype Stage = Stage(ws: seq<Widget>, assocs: seq<Assoc>)

  /** The stages before every turn and after the last: turn k decides
      association k and finds it as it was in the beginning. */
  ghost predicate Turns(as0: seq<Assoc>, stages: seq<Stage>, j: nat)
  {
    && j <= |as0| && |stages| == j + 1 && stages[0].assocs == as0
    && (forall k :: 0 <= k < |as0| ==> AssocReady(as0[k]))
    && (forall k :: 0 <= k < j ==> TurnOf(as0, stages, k))
  }

  ghost predicate Turn(as0: seq<Assoc>, before: Stage, k: nat, after: Stage)
    requires k < |as0| && AssocReady(as0[k])
  {
    && |before.assocs| == |as0| && before.assocs[k] == as0[k]
    && Unbound(before.ws, k) && !Live(before.ws, 0)
    && TurnTaken(before.ws, before.assocs, k, after.ws, after.assocs)
  }

  ghost predicate TurnOf(as0: seq<Assoc>, stages: seq<Stage>, k: nat)
    requires k < |as0| && k + 1 < |stages| && AssocReady(as0[k])
  {
    Turn(as0, stages[k], k, stages[k + 1])
  }

  lemma TurnsNext(as0: seq<Assoc>, stages: seq<Stage>, j: nat, next: nat, after: Stage)
    requires Turns(as0, stages, j) && j < |as0| && next == j + 1
    requires Turn(as0, stages[j], j, after)
    ensures Turns(as0, stages + [after], next)
  {
    var more := stages + [after];
    forall k | 0 <= k < next ensures TurnOf(as0, more, k) {
      assert k < j ==> TurnOf(as0, stages, k) && more[k + 1] == stages[k + 1];
    }
  }

  lemma {:induction false} UnpatchedTurns(as0: seq<Assoc>, stages: seq<Stage>, j: nat, k: nat)
    requires Turns(as0, stages, j) && k <= j && Unpatched(stages[0].ws)
    ensures Unpatched(stages[k].ws)
  {
    if k > 0 {
      UnpatchedTurns(as0, stages, j, k - 1);
      assert TurnOf(as0, stages, k - 1);
    }
  }

  /** Without user patches association k keeps its flag in its turn exactly
      when it can be traced then. */
  lemma TurnTraceable(as0: seq<Assoc>, stages: seq<Stage>, j: nat, k: nat)
    requires Turns(as0, stages, j) && k < j && Unpatched(stages[0].ws)
    ensures |stages[k].assocs| == |stages[k + 1].assocs| == |as0| && stages[k].assocs[k] == as0[k]
    ensures stages[k + 1].assocs[k].enable <==> as0[k].enable && Traceable(stages[k].ws, stages[k].assocs, k)
  {
    UnpatchedTurns(as0, stages, j, k);
    assert TurnOf(as0, stages, k);
    TakenTraceable(stages[k].ws, stages[k].assocs, k, stages[k + 1].ws, stages[k + 1].assocs);
  }

  /** A turn is the only one that changes its association. */
  lemma {:induction false} TurnLasts(as0: seq<Assoc>, stages: seq<Stage>, j: nat, k: nat, m: nat)
    requires Turns(as0, stages, j) && k < m <= j
    ensures |stages[m].assocs| == |stages[k + 1].assocs| == |as0| && stages[m].assocs[k] == stages[k + 1].assocs[k]
  {
    assert TurnOf(as0, stages, k);
    assert TurnOf(as0, stages, m - 1);
    if k + 1 < m {
      TurnLasts(as0, stages, j, k, m - 1);
    }
  }

  // ----- The searches, one turn each -----

  lemma {:induction false} LeastUnpatched(ws: seq<Widget>, as0: seq<Assoc>, a: nat, s: nat, ws': seq<Widget>,
                                          as': seq<Assoc>)
    requires a < |as0| && AssocOk(as0[a]) && as0[a].hpredir < PINS && s <= PINS
    requires LeastAssignment(ws, as0, a, s, ws', as') && Unpatched(ws)
    ensures Unpatched(ws')
    decreases PINS - s
  {
    var i := NextPin(as0[a].pins, s);
    if i < PINS {
      var r :| Choice(ws, as0, a, i, r) && LeastBy(ws, as0, a, i, r, ws', as');
      MarkUnpatched(ws, r, a, i);
      LeastUnpatched(Mark(ws, r, a, i), Noted(as0, a, i, Target(r)), a, i + 1, ws', as');
    }
  }

  lemma OutUnpatched(ws: seq<Widget>, as0: seq<Assoc>, a: nat, ok: bool, ws': seq<Widget>, as': seq<Assoc>)
    requires a < |as0| && AssocReady(as0[a]) && OutDecided(ws, as0, a, ok, ws', as') && ok && Unpatched(ws)
    ensures Unpatched(ws')
  {
    LeastUnpatched(ws, if Assignable(ws, as0, a, 0) then as0 else Faked(as0, a), a, 0, ws', as');
  }

  lemma UndoneUnpatched(ws: seq<Widget>, ws': seq<Widget>)
    requires Undone(ws, ws') && Unpatched(ws)
    ensures Unpatched(ws')
  {
    UndoneFresh(ws, ws');
  }
}
