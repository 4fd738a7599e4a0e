/** Headphone redirection, real and fake, in terms of the association's fields:
    a jack redirected in earnest takes the DAC of another pin, one redirected
    with fakeredir set asks for a DAC of its own. */
module Redirection {
  import opened HdaGraph
  import opened OutputTrace
  import opened OutputAssociation
  import opened RouteProperties
  import opened AssociationTurns

  /** No pin has to take the DAC of another. */
  predicate Unredirected(asc: Assoc)
  {
    asc.fakeredir || asc.hpredir < 0
  }

  function WithRedir(as0: seq<Assoc>, a: nat, hpredir: int, fakeredir: bool): (as1: seq<Assoc>)
    requires a < |as0| && AssocOk(as0[a])
    ensures |as1| == |as0| && AssocOk(as1[a])
  {
    as0[a := as0[a].(hpredir := hpredir, fakeredir := fakeredir)]
  }

  lemma NotedRedir(as0: seq<Assoc>, a: nat, i: nat, d: int, h: int, fake: bool)
    requires a < |as0| && AssocOk(as0[a]) && i < PINS
    ensures WithRedir(Noted(as0, a, i, d), a, h, fake) == Noted(WithRedir(as0, a, h, fake), a, i, d)
  {
  }

  /** An association whose fakeredir is set can be given DACs exactly when it
      could without redirection. */
  lemma {:induction false} AssignableUnredirected(ws: seq<Widget>, as0: seq<Assoc>, a: nat, s: nat, h: int, fake: bool)
    requires a < |as0| && AssocOk(as0[a]) && as0[a].hpredir < PINS && s <= PINS && h < PINS
    requires Unredirected(as0[a]) && (fake || h < 0)
    ensures Assignable(ws, as0, a, s) <==> Assignable(ws, WithRedir(as0, a, h, fake), a, s)
    decreases PINS - s
  {
    var i := NextPin(as0[a].pins, s);
    if i < PINS {
      var as1 := WithRedir(as0, a, h, fake);
      forall r ensures Choice(ws, as0, a, i, r) && AssignableAfter(ws, as0, a, i, r) <==>
                       Choice(ws, as1, a, i, r) && AssignableAfter(ws, as1, a, i, r)
      {
        AfterUnredirected(ws, as0, a, i, r, h, fake);
      }
    }
  }

  lemma {:induction false} AfterUnredirected(ws: seq<Widget>, as0: seq<Assoc>, a: nat, i: nat, r: Route, h: int,
                                             fake: bool)
    requires InRange(as0, a, i) && h < PINS && Unredirected(as0[a]) && (fake || h < 0)
    ensures Choice(ws, as0, a, i, r) <==> Choice(ws, WithRedir(as0, a, h, fake), a, i, r)
    ensures AssignableAfter(ws, as0, a, i, r) <==> AssignableAfter(ws, WithRedir(as0, a, h, fake), a, i, r)
    decreases PINS - i, 0
  {
    AssignableUnredirected(Mark(ws, r, a, i), Noted(as0, a, i, Target(r)), a, i + 1, h, fake);
    NotedRedir(as0, a, i, Target(r), h, fake);
  }

  /** And the least assignment is the one it would get without redirection. */
  lemma {:induction false} LeastUnredirected(ws: seq<Widget>, as0: seq<Assoc>, a: nat, s: nat, ws': seq<Widget>,
                                             as': seq<Assoc>, h: int, fake: bool)
    requires a < |as0| && AssocOk(as0[a]) && as0[a].hpredir < PINS && s <= PINS && h < PINS
    requires Unredirected(as0[a]) && (fake || h < 0)
    requires a < |as'| && AssocOk(as'[a]) && as'[a].hpredir == as0[a].hpredir && as'[a].fakeredir == as0[a].fakeredir
    ensures LeastAssignment(ws, as0, a, s, ws', as') <==>
            LeastAssignment(ws, WithRedir(as0, a, h, fake), a, s, ws', WithRedir(as', a, h, fake))
    decreases PINS - s
  {
    var i := NextPin(as0[a].pins, s);
    var as1, as2 := WithRedir(as0, a, h, fake), WithRedir(as', a, h, fake);
    if i < PINS {
      forall r ensures Choice(ws, as0, a, i, r) && LeastBy(ws, as0, a, i, r, ws', as') <==>
                       Choice(ws, as1, a, i, r) && LeastBy(ws, as1, a, i, r, ws', as2)
      {
        AfterUnredirected(ws, as0, a, i, r, h, fake);
        ByUnredirected(ws, as0, a, i, r, ws', as', h, fake);
      }
    } else {
      assert as' == WithRedir(as2, a, as0[a].hpredir, as0[a].fakeredir);
      assert as0 == WithRedir(as1, a, as0[a].hpredir, as0[a].fakeredir);
    }
  }

  lemma {:induction false} ByUnredirected(ws: seq<Widget>, as0: seq<Assoc>, a: nat, i: nat, r: Route, ws': seq<Widget>,
                                          as': seq<Assoc>, h: int, fake: bool)
    requires InRange(as0, a, i) && h < PINS && Unredirected(as0[a]) && (fake || h < 0)
    requires a < |as'| && AssocOk(as'[a]) && as'[a].hpredir == as0[a].hpredir && as'[a].fakeredir == as0[a].fakeredir
    ensures LeastBy(ws, as0, a, i, r, ws', as') <==>
            LeastBy(ws, WithRedir(as0, a, h, fake), a, i, r, ws', WithRedir(as', a, h, fake))
    decreases PINS - i, 0
  {
    var as1 := WithRedir(as0, a, h, fake);
    NotedRedir(as0, a, i, Target(r), h, fake);
    LeastUnredirected(Mark(ws, r, a, i), Noted(as0, a, i, Target(r)), a, i + 1, ws', as', h, fake);
    assert BetterFails(ws, as0, a, i, r) <==> BetterFails(ws, as1, a, i, r) by {
      forall r' ensures Choice(ws, as0, a, i, r') && AssignableAfter(ws, as0, a, i, r') <==>
                        Choice(ws, as1, a, i, r') && AssignableAfter(ws, as1, a, i, r')
      {
        AfterUnredirected(ws, as0, a, i, r', h, fake);
      }
    }
  }

  /** No smaller DAC than that of r lets the search go on. */
  ghost predicate BetterFails(ws: seq<Widget>, as0: seq<Assoc>, a: nat, i: nat, r: Route)
    requires InRange(as0, a, i)
  {
    forall r' :: Choice(ws, as0, a, i, r') && Target(r') < Target(r) ==> !AssignableAfter(ws, as0, a, i, r')
  }

  /** An assignment writes nothing but the DACs. */
  lemma {:induction false} LeastOnlyDacs(ws: seq<Widget>, as0: seq<Assoc>, a: nat, s: nat, ws': seq<Widget>,
                                         as': seq<Assoc>)
    requires a < |as0| && AssocOk(as0[a]) && as0[a].hpredir < PINS && s <= PINS
    requires LeastAssignment(ws, as0, a, s, ws', as')
    ensures |as'| == |as0| && AssocOk(as'[a]) && as'[a] == as0[a].(dacs := as'[a].dacs)
    decreases PINS - s
  {
    var i := NextPin(as0[a].pins, s);
    if i < PINS {
      var r :| Choice(ws, as0, a, i, r) && LeastBy(ws, as0, a, i, r, ws', as');
      LeastOnlyDacs(Mark(ws, r, a, i), Noted(as0, a, i, Target(r)), a, i + 1, ws', as');
    }
  }

  /** The outcome of an output association's turn without user patches, the
      retry in terms of an association that is not redirected at all: DACs by
      real redirection, else, if there is a pin to share with, DACs for every pin
      as if there were none; and failure exactly when neither is possible. */
  lemma DecidedByRetry(ws: seq<Widget>, as0: seq<Assoc>, a: nat, ok: bool, ws': seq<Widget>, as': seq<Assoc>)
    requires a < |as0| && AssocReady(as0[a]) && OutDecided(ws, as0, a, ok, ws', as')
    ensures ok <==> || Assignable(ws, as0, a, 0)
                    || (as0[a].hpredir >= 0 && Assignable(ws, WithRedir(as0, a, -1, false), a, 0))
    ensures ok ==> |as'| == |as0| && AssocOk(as'[a])
    ensures ok && !Assignable(ws, as0, a, 0) ==>
              LeastAssignment(ws, WithRedir(as0, a, -1, false), a, 0, ws', WithRedir(as', a, -1, false))
  {
    if Assignable(ws, as0, a, 0) {
      LeastOnlyDacs(ws, as0, a, 0, ws', as');
    } else if as0[a].hpredir >= 0 {
      var as1 := Faked(as0, a);
      AssignableUnredirected(ws, as1, a, 0, -1, false);
      assert WithRedir(as1, a, -1, false) == WithRedir(as0, a, -1, false);
      if ok {
        LeastOnlyDacs(ws, as1, a, 0, ws', as');
        LeastUnredirected(ws, as1, a, 0, ws', as', -1, false);
      }
    }
  }

  // ----- A codec that needs the retry -----

  /** Speaker pin 4 takes DAC 2, headphone pin 5 takes DAC 3. */
  function TwoPaths(): seq<Widget>
  {
    var off := PlainWidget(VendorDefined, []).(enable := false);
    [off, off, PlainWidget(AudioOutput, []), PlainWidget(AudioOutput, []),
     PlainWidget(PinComplex, [2]), PlainWidget(PinComplex, [3])]
  }

  /** The speaker at sequence 0, the headphones at 15, to share its DAC. */
  function SpeakerAndJack(fakeredir: bool): Assoc
  {
    Assoc(true, 0, Out, 2, fakeredir, 0, 0, seq(PINS, s => if s == 0 then 4 else if s == 15 then 5 else 0),
          seq(PINS, _ => 0), 0, 0, 15)
  }

  /** Pin 4 leads to DAC 2 and pin 5 to DAC 3 only. */
  lemma OnlyRoute(ws: seq<Widget>, q: Query, r: Route)
    requires |ws| == 6 && (forall n :: 0 <= n < 6 ==> SameStructure(TwoPaths()[n], ws[n]))
    requires IsRoute(ws, q, r, 0) && Source(r) in {4, 5}
    ensures r == Via(Source(r), 0, Dac(Source(r) - 2))
  {
  }

  lemma PathRoute(ws: seq<Widget>, q: Query, pin: int)
    requires q == Query(0, -1, 0, 0) && pin in {4, 5} && |ws| == 6
    requires ws[pin] == TwoPaths()[pin] && ws[pin - 2] == TwoPaths()[pin - 2]
    ensures var r := Via(pin, 0, Dac(pin - 2)); IsRoute(ws, q, r, 0) && FirstChoice(ws, q, r, 0)
  {
    assert IsRoute(ws, q, Dac(pin - 2), 1);
  }

  /** The widgets and the association after the speaker has been traced. */
  predicate SpeakerTraced(ws: seq<Widget>, as0: seq<Assoc>, fakeredir: bool)
  {
    && |ws| == 6 && (forall n :: 0 <= n < 6 ==> SameStructure(TwoPaths()[n], ws[n]))
    && ws[3] == TwoPaths()[3] && ws[5] == TwoPaths()[5]
    && as0 == Noted([SpeakerAndJack(fakeredir)], 0, 0, 2)
  }

  lemma SpeakerChoice(r: Route, fakeredir: bool)
    ensures var ws, as0 := TwoPaths(), [SpeakerAndJack(fakeredir)];
            && NextPin(as0[0].pins, 0) == 0
            && (Choice(ws, as0, 0, 0, r) <==> r == Via(4, 0, Dac(2)))
            && SpeakerTraced(Mark(ws, Via(4, 0, Dac(2)), 0, 0), Noted(as0, 0, 0, 2), fakeredir)
  {
    PathRoute(TwoPaths(), Query(0, -1, 0, 0), 4);
    if Choice(TwoPaths(), [SpeakerAndJack(fakeredir)], 0, 0, r) {
      OnlyRoute(TwoPaths(), Query(0, -1, 0, 0), r);
    }
  }

  lemma JackIsNext(pins: seq<int>, fakeredir: bool)
    requires pins == SpeakerAndJack(fakeredir).pins
    ensures pins[15] == 5 && NextPin(pins, 1) == 15
  {
    assert forall j :: 1 <= j < 15 ==> pins[j] == 0;
  }

  /** The jack cannot take the speaker's DAC; it can have DAC 3. */
  lemma JackChoice(ws: seq<Widget>, as0: seq<Assoc>, r: Route, fakeredir: bool)
    requires SpeakerTraced(ws, as0, fakeredir)
    ensures NextPin(as0[0].pins, 1) == 15
    ensures Choice(ws, as0, 0, 15, r) <==> fakeredir && r == Via(5, 0, Dac(3))
  {
    JackIsNext(as0[0].pins, fakeredir);
    var q := QueryOf(as0, 0, SharedSeq(as0[0], 15), 0);
    assert q == Query(0, if fakeredir then -1 else 0, if fakeredir then 0 else 2, 0);
    if fakeredir {
      PathRoute(ws, q, 5);
    }
    if Choice(ws, as0, 0, 15, r) {
      OnlyRoute(ws, q, r);
      RouteTarget(ws, q, r, 0);
    }
  }

  lemma NoneForJack(ws: seq<Widget>, as0: seq<Assoc>)
    requires SpeakerTraced(ws, as0, false)
    ensures !Assignable(ws, as0, 0, 1)
  {
    forall c ensures NextPin(as0[0].pins, 1) == 15 && !Choice(ws, as0, 0, 15, c) {
      JackChoice(ws, as0, c, false);
    }
    JackIsNext(as0[0].pins, false);
  }

  lemma RealRedirectionFails()
    ensures !Assignable(TwoPaths(), [SpeakerAndJack(false)], 0, 0)
  {
    var ws, as0, r := TwoPaths(), [SpeakerAndJack(false)], Via(4, 0, Dac(2));
    SpeakerChoice(r, false);
    NoneForJack(Mark(ws, r, 0, 0), Noted(as0, 0, 0, 2));
    forall c | Choice(ws, as0, 0, 0, c) ensures !AssignableAfter(ws, as0, 0, 0, c) {
      SpeakerChoice(c, false);
    }
  }

  lemma JackAssigns(ws: seq<Widget>, as0: seq<Assoc>, ws': seq<Widget>, as': seq<Assoc>)
    requires SpeakerTraced(ws, as0, true)
    ensures Assignable(ws, as0, 0, 1)
    ensures LeastAssignment(ws, as0, 0, 1, ws', as') ==> as' == Noted(as0, 0, 15, 3)
  {
    var r := Via(5, 0, Dac(3));
    JackChoice(ws, as0, r, true);
    assert AssignableAfter(ws, as0, 0, 15, r);
    if LeastAssignment(ws, as0, 0, 1, ws', as') {
      var c :| Choice(ws, as0, 0, 15, c) && LeastBy(ws, as0, 0, 15, c, ws', as');
      JackChoice(ws, as0, c, true);
    }
  }

  lemma FakeRedirectionAssigns(ws': seq<Widget>, as': seq<Assoc>)
    ensures Assignable(TwoPaths(), [SpeakerAndJack(true)], 0, 0)
    ensures LeastAssignment(TwoPaths(), [SpeakerAndJack(true)], 0, 0, ws', as') ==>
              as' == Noted(Noted([SpeakerAndJack(true)], 0, 0, 2), 0, 15, 3)
  {
    var ws, as0, r := TwoPaths(), [SpeakerAndJack(true)], Via(4, 0, Dac(2));
    SpeakerChoice(r, true);
    JackAssigns(Mark(ws, r, 0, 0), Noted(as0, 0, 0, 2), ws', as');
    assert AssignableAfter(ws, as0, 0, 0, r);
    if LeastAssignment(ws, as0, 0, 0, ws', as') {
      var c :| Choice(ws, as0, 0, 0, c) && LeastBy(ws, as0, 0, 0, c, ws', as');
      SpeakerChoice(c, true);
    }
  }

  /** The retry decides where real redirection fails. */
  lemma RetryDecides(ws: seq<Widget>, as0: seq<Assoc>, as1: seq<Assoc>, a: nat, ok: bool, ws': seq<Widget>,
                     as': seq<Assoc>)
    requires a < |as0| && AssocReady(as0[a]) && OutDecided(ws, as0, a, ok, ws', as')
    requires as1 == Faked(as0, a) && as0[a].hpredir >= 0 && !Assignable(ws, as0, a, 0) && Assignable(ws, as1, a, 0)
    ensures ok && LeastAssignment(ws, as1, a, 0, ws', as')
  {
  }

  lemma BothDacs(as0: seq<Assoc>, as': seq<Assoc>)
    requires as0 == [SpeakerAndJack(true)] && as' == Noted(Noted(as0, 0, 0, 2), 0, 15, 3)
    ensures |as'| == 1 && AssocOk(as'[0]) && as'[0].dacs[0] == 2 && as'[0].dacs[15] == 3
  {
  }

  /** The turn of such an association, which the retry alone can trace: both
      pins get a DAC of their own. */
  lemma RetryNeeded(ws: seq<Widget>, as0: seq<Assoc>, ok: bool, ws': seq<Widget>, as': seq<Assoc>)
    requires ws == TwoPaths() && as0 == [SpeakerAndJack(false)] && AssocReady(as0[0])
    requires OutDecided(ws, as0, 0, ok, ws', as')
    ensures ok && |as'| == 1 && AssocOk(as'[0]) && as'[0].dacs[0] == 2 && as'[0].dacs[15] == 3
  {
    var as1 := [SpeakerAndJack(true)];
    RealRedirectionFails();
    FakeRedirectionAssigns(ws', as');
    RetryDecides(ws, as0, as1, 0, ok, ws', as');
    BothDacs(as1, as');
  }
}
