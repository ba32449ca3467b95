/** The trigger registry of the pihub node: the fixed map from trigger name to
    output pin, the in-memory level of each trigger, the level last driven on
    each pin, and the `/triggers/<trigger>` resource that reads and sets them. */
module Site {
  import opened Text

  /** The two output levels, GPIO.LOW and GPIO.HIGH. */
  datatype Level = Low | High

  datatype Option<T> = None | Some(value: T)

  /** The configured triggers: name to pin (BCM numbering). */
  const Sofa: string := "sofa"
  const Triggers: map<string, int> := map[Sofa := 23]

  /** The messages of the error answers, spelled as the service spells them. */
  const UnknownOnGet: string := "trigger unkonwn or missing"
  const UnknownOnPost: string := "trigger unkonw or missing"
  const ActionMissing: string := "action missing or failed to be converted"

  /** What a request answers: a trigger report, a plain message, or the
      framework's internal-error page when the handler raises. */
  datatype Body = Info(trigger: string, pin: int, state: string) | Message(text: string) | InternalError

  datatype Response = Response(body: Body, status: int)

  /** The `state` word of a GET report. */
  function LevelName(l: Level): (w: string)
    ensures w == "on" || w == "off"
    ensures w == "on" <==> l == High
  {
    if l == High then "on" else "off"
  }

  /** Every recorded trigger is configured, and its pin is at the recorded level. */
  ghost predicate Consistent(state: map<string, Level>, pins: map<int, Level>) {
    forall n :: n in state ==> n in Triggers && Triggers[n] in pins && pins[Triggers[n]] == state[n]
  }

  /** Every configured pin is driven low. */
  ghost predicate Idle(pins: map<int, Level>) {
    forall n :: n in Triggers ==> Triggers[n] in pins && pins[Triggers[n]] == Low
  }

  /** GET /triggers/<trigger>: the name is trimmed and lower-cased, an unknown
      name is a 404, a known one is reported with its pin and "on"/"off".
      A configured name that `state` does not hold yet (before setup) makes
      the lookup raise, which the framework answers with a 500. */
  function GetResponse(state: map<string, Level>, trigger: string): (r: Response)
    ensures r.status == 404 <==> Normalize(trigger) !in Triggers
    ensures r.status == 404 ==> r.body == Message(UnknownOnGet)
    ensures r.status == 500 <==> Normalize(trigger) in Triggers && Normalize(trigger) !in state
    ensures r.status == 200 <==> Normalize(trigger) in Triggers && Normalize(trigger) in state
    ensures r.status == 200 ==>
      r.body.Info? && r.body.trigger == Normalize(trigger) && r.body.pin == Triggers[r.body.trigger]
      && (r.body.state == "on" || r.body.state == "off")
      && (r.body.state == "on" <==> state[r.body.trigger] == High)
  {
    var name := Normalize(trigger);
    if name !in Triggers then Response(Message(UnknownOnGet), 404)
    else if name !in state then Response(InternalError, 500)
    else Response(Info(name, Triggers[name], LevelName(state[name])), 200)
  }

  /** The answer of a POST together with the registry it leaves behind. */
  datatype Outcome = Outcome(response: Response, state: map<string, Level>, pins: map<int, Level>)

  /** POST /triggers/<trigger> with form field `action`: a missing action is a
      400 whatever the name; otherwise the raw (not normalised) name must be
      configured, else 404; otherwise the trigger is recorded HIGH exactly when
      the normalised action is "on" (LOW for any other word). Then its pin is
      written: if the pin was set up as an output it takes that level and the
      normalised action is echoed; if not, the write raises and the framework
      answers 500, with the new level already recorded and the pin untouched. */
  function PostOutcome(state: map<string, Level>, pins: map<int, Level>, outputs: set<int>,
                       trigger: string, action: Option<string>): (o: Outcome)
    ensures o.response.status == 400 <==> action.None?
    ensures o.response.status == 400 ==> o.response.body == Message(ActionMissing)
    ensures o.response.status == 404 <==> action.Some? && trigger !in Triggers
    ensures o.response.status == 404 ==> o.response.body == Message(UnknownOnPost)
    ensures o.response.status == 500 <==> action.Some? && trigger in Triggers && Triggers[trigger] !in outputs
    ensures o.response.status == 500 ==> o.response.body == InternalError
    ensures o.response.status == 200 <==> action.Some? && trigger in Triggers && Triggers[trigger] in outputs
    ensures o.response.status == 400 || o.response.status == 404 ==> o.state == state && o.pins == pins
    ensures action.Some? && trigger in Triggers ==>
      o.state.Keys == state.Keys + {trigger}
      && (o.state[trigger] == High <==> Normalize(action.value) == "on")
      && (forall n :: n in state && n != trigger ==> o.state[n] == state[n])
    ensures o.response.status == 500 ==> o.pins == pins
    ensures o.response.status == 200 ==>
      o.response.body == Info(trigger, Triggers[trigger], Normalize(action.value))
      && o.pins.Keys == pins.Keys + {Triggers[trigger]}
      && o.pins[Triggers[trigger]] == o.state[trigger]
      && (forall p :: p in pins && p != Triggers[trigger] ==> o.pins[p] == pins[p])
  {
    match action
    case None => Outcome(Response(Message(ActionMissing), 400), state, pins)
    case Some(raw) =>
      var act := Normalize(raw);
      if trigger !in Triggers then Outcome(Response(Message(UnknownOnPost), 404), state, pins)
      else
        var level := if act == "on" then High else Low;
        if Triggers[trigger] !in outputs then Outcome(Response(InternalError, 500), state[trigger := level], pins)
        else
          Outcome(Response(Info(trigger, Triggers[trigger], act), 200),
                  state[trigger := level], pins[Triggers[trigger] := level])
  }

  /** The module-level `state` dictionary, the pin levels written through
      GPIO.output and the pins GPIO.setup has made outputs, owned by one object. */
  class Registry {
    var state: map<string, Level>
    var pins: map<int, Level>
    var outputs: set<int>

    ghost predicate Valid()
      reads this
    {
      state.Keys <= Triggers.Keys && outputs <= pins.Keys
    }

    /** At start the dictionary is empty and no pin is set up or driven. */
    constructor ()
      ensures Valid()
      ensures state == map[] && pins == map[] && outputs == {}
    {
      state := map[];
      pins := map[];
      outputs := {};
    }

    /** setup(): make the sofa pin an output, drive it low and record the sofa
        trigger as LOW. */
    method Setup()
      requires Valid()
      modifies this
      ensures Valid()
      ensures state == old(state)[Sofa := Low]
      ensures pins == old(pins)[Triggers[Sofa] := Low]
      ensures outputs == old(outputs) + {Triggers[Sofa]}
      ensures state.Keys == Triggers.Keys
      ensures Consistent(state, pins)
      ensures GetResponse(state, Sofa) == Response(Info(Sofa, 23, "off"), 200)
    {
      outputs := outputs + {Triggers[Sofa]};
      pins := pins[Triggers[Sofa] := Low];
      state := state[Sofa := Low];
      SofaNormal();
    }

    /** clean(): drive the sofa pin low, then release every pin. The write
        raises when the pin is not set up, and the release is then skipped;
        `done` tells whether clean() ran to its end. The recorded levels stay
        as they are either way. */
    method Clean() returns (done: bool)
      requires Valid()
      modifies this
      ensures Valid()
      ensures done <==> Triggers[Sofa] in old(outputs)
      ensures state == old(state)
      ensures done ==> pins == old(pins)[Triggers[Sofa] := Low] && outputs == {} && Idle(pins)
      ensures !done ==> pins == old(pins) && outputs == old(outputs)
    {
      if Triggers[Sofa] !in outputs {
        return false;
      }
      pins := pins[Triggers[Sofa] := Low];
      outputs := {};
      done := true;
    }

    /** Trigger.post: the answer and the new maps are those of PostOutcome. */
    method Post(trigger: string, action: Option<string>) returns (r: Response)
      requires Valid()
      modifies this
      ensures Valid()
      ensures outputs == old(outputs)
      ensures Outcome(r, state, pins) == PostOutcome(old(state), old(pins), old(outputs), trigger, action)
      ensures Consistent(old(state), old(pins)) && r.status != 500 ==> Consistent(state, pins)
    {
      if action.None? {
        return Response(Message(ActionMissing), 400);
      }
      var act := Normalize(action.value);
      if trigger !in Triggers {
        return Response(Message(UnknownOnPost), 404);
      }
      state := state[trigger := if act == "on" then High else Low];
      if Triggers[trigger] !in outputs {
        return Response(InternalError, 500);
      }
      pins := pins[Triggers[trigger] := state[trigger]];
      r := Response(Info(trigger, Triggers[trigger], act), 200);
      PostKeepsConsistent(old(state), old(pins), old(outputs), trigger, action);
    }
  }

  /** The service started with setup() run first: every request is then
      served, and GET of "sofa" reports pin 23 off. */
  method Start() returns (r: Registry)
    ensures fresh(r) && r.Valid()
    ensures r.state == map[Sofa := Low] && r.outputs == {Triggers[Sofa]}
    ensures Consistent(r.state, r.pins)
    ensures GetResponse(r.state, Sofa) == Response(Info(Sofa, 23, "off"), 200)
  {
    r := new Registry();
    r.Setup();
  }

  /** The service as its entry point starts it, without setup(): GET of "sofa"
      is a 500; a POST of "on" is a 500 as well, yet it records the trigger as
      HIGH while pin 23 was never driven, so a later GET reports "on". */
  lemma UnsetupService()
    ensures GetResponse(map[], Sofa).status == 500
    ensures var o := PostOutcome(map[], map[], {}, Sofa, Some("on"));
      o.response.status == 500 && o.pins == map[] && !Consistent(o.state, o.pins)
      && GetResponse(o.state, Sofa) == Response(Info(Sofa, 23, "on"), 200)
  {
    SofaNormal();
    assert Trimmed("on") && NoUpper("on");
    NormalizeFixed("on");
    var o := PostOutcome(map[], map[], {}, Sofa, Some("on"));
    assert Sofa in o.state && Triggers[Sofa] !in o.pins;
  }

  /** The configured name is its own normal form. */
  lemma SofaNormal()
    ensures Normalize(Sofa) == Sofa
  {
    assert Trimmed(Sofa) && NoUpper(Sofa);
    NormalizeFixed(Sofa);
  }

  /** Any capitalisation of "sofa" lower-cases to "sofa". */
  lemma LowerSofa(w: string)
    requires |w| == 4 && w[0] in "sS" && w[1] in "oO" && w[2] in "fF" && w[3] in "aA"
    ensures Lower(w) == Sofa
  {
    var l := Lower(w);
    assert l[0] == 's' && l[1] == 'o' && l[2] == 'f' && l[3] == 'a';
  }

  /** After setup, a GET of any spelling of "sofa" reports pin 23 off. */
  lemma GetAfterSetup(state: map<string, Level>, trigger: string)
    requires Normalize(trigger) == Sofa
    ensures GetResponse(state[Sofa := Low], trigger) == Response(Info(Sofa, 23, "off"), 200)
  {
  }

  /** GET answers the same for a name and for its normal form. */
  lemma GetNormalises(state: map<string, Level>, trigger: string)
    ensures GetResponse(state, trigger) == GetResponse(state, Normalize(trigger))
  {
    NormalizeIdempotent(trigger);
  }

  /** GET ignores whitespace around the name and the case of its letters. */
  lemma GetIgnoresPaddingAndCase(state: map<string, Level>, pre: string, trigger: string, post: string)
    requires AllSpace(pre) && AllSpace(post)
    ensures GetResponse(state, pre + trigger + post) == GetResponse(state, Lower(trigger))
  {
    NormalizeIgnoresPadding(pre, trigger, post);
    NormalizeIgnoresCase(trigger);
  }

  /** Any capitalisation of "sofa", padded with whitespace, is answered as "sofa". */
  lemma GetSofaSpelling(state: map<string, Level>, pre: string, w: string, post: string)
    requires AllSpace(pre) && AllSpace(post)
    requires |w| == 4 && w[0] in "sS" && w[1] in "oO" && w[2] in "fF" && w[3] in "aA"
    ensures GetResponse(state, pre + w + post) == GetResponse(state, Sofa)
  {
    GetIgnoresPaddingAndCase(state, pre, w, post);
    LowerSofa(w);
  }

  /** "  SoFa " is answered as "sofa". */
  lemma GetMixedCase(state: map<string, Level>)
    ensures GetResponse(state, "  SoFa ") == GetResponse(state, Sofa)
  {
    assert "  SoFa " == "  " + "SoFa" + " ";
    GetSofaSpelling(state, "  ", "SoFa", " ");
  }

  /** The required `action` is checked before the name: without it every
      POST is a 400, even to an unknown trigger, and nothing changes. */
  lemma PostWithoutAction(state: map<string, Level>, pins: map<int, Level>, outputs: set<int>, trigger: string)
    ensures PostOutcome(state, pins, outputs, trigger, None) == Outcome(Response(Message(ActionMissing), 400), state, pins)
  {
  }

  /** POST does not normalise the name: " Sofa" is unknown to POST and leaves
      the registry alone. */
  lemma PostRawName(state: map<string, Level>, pins: map<int, Level>, outputs: set<int>, action: string)
    ensures PostOutcome(state, pins, outputs, " Sofa", Some(action)) == Outcome(Response(Message(UnknownOnPost), 404), state, pins)
  {
    assert " Sofa" != Sofa by { assert |" Sofa"| != |Sofa|; }
  }

  /** GET does normalise the name: " Sofa" is found once the trigger is set up. */
  lemma GetRawName(state: map<string, Level>)
    requires Sofa in state
    ensures GetResponse(state, " Sofa") == Response(Info(Sofa, 23, LevelName(state[Sofa])), 200)
  {
    assert " Sofa" == " " + "Sofa" + [];
    GetSofaSpelling(state, " ", "Sofa", []);
    SofaNormal();
  }

  /** A POST that is answered without a server error keeps the pins in step
      with the levels. */
  lemma PostKeepsConsistent(state: map<string, Level>, pins: map<int, Level>, outputs: set<int>,
                            trigger: string, action: Option<string>)
    ensures var o := PostOutcome(state, pins, outputs, trigger, action);
      Consistent(state, pins) && o.response.status != 500 ==> Consistent(o.state, o.pins)
  {
    var o := PostOutcome(state, pins, outputs, trigger, action);
    if Consistent(state, pins) && o.response.status == 200 {
      forall n | n in o.state
        ensures n in Triggers && Triggers[n] in o.pins && o.pins[Triggers[n]] == o.state[n]
      {
        assert n == trigger || n in state;
        assert Triggers.Keys == {Sofa};
      }
    }
  }

  /** After POSTing "on" or "off" (in any spacing or case), GET reports that
      word; the POST itself answers that word when the pin is set up. */
  lemma PostThenGet(state: map<string, Level>, pins: map<int, Level>, outputs: set<int>, trigger: string, action: string)
    requires trigger in Triggers
    requires Normalize(action) == "on" || Normalize(action) == "off"
    ensures GetResponse(PostOutcome(state, pins, outputs, trigger, Some(action)).state, trigger)
         == Response(Info(trigger, Triggers[trigger], Normalize(action)), 200)
    ensures Triggers[trigger] in outputs ==>
      PostOutcome(state, pins, outputs, trigger, Some(action)).response
         == Response(Info(trigger, Triggers[trigger], Normalize(action)), 200)
  {
    assert trigger == Sofa;
    SofaNormal();
  }

  /** Any word but "on" switches the trigger off, yet is echoed as given. */
  lemma PostBogusThenGet(state: map<string, Level>, pins: map<int, Level>, outputs: set<int>)
    requires Triggers[Sofa] in outputs
    ensures PostOutcome(state, pins, outputs, Sofa, Some("bogus")).response.body == Info(Sofa, 23, "bogus")
    ensures GetResponse(PostOutcome(state, pins, outputs, Sofa, Some("bogus")).state, Sofa) == Response(Info(Sofa, 23, "off"), 200)
  {
    assert Trimmed("bogus") && NoUpper("bogus");
    NormalizeFixed("bogus");
    SofaNormal();
  }

  /** Repeating a POST changes nothing further. */
  lemma PostIdempotent(state: map<string, Level>, pins: map<int, Level>, outputs: set<int>, trigger: string, action: Option<string>)
    ensures var o := PostOutcome(state, pins, outputs, trigger, action);
      PostOutcome(o.state, o.pins, outputs, trigger, action) == o
  {
  }

  /** Actions that normalise alike set the same levels. */
  lemma PostActionNormalised(state: map<string, Level>, pins: map<int, Level>, outputs: set<int>, trigger: string, action: string)
    ensures PostOutcome(state, pins, outputs, trigger, Some(action))
         == PostOutcome(state, pins, outputs, trigger, Some(Normalize(action)))
  {
    NormalizeIdempotent(action);
  }
}
