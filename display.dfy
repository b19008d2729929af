/** The human-readable labels the serializers compute: of a points transaction's
    action, and of a user interaction's content type and interaction type. The points
    configuration and the registered interaction types are given as parameters. */
module Display {
  import opened Wrappers
  import opened Text

  /** `s.replace('_', ' ').title()` */
  function Humanize(s: string): (r: string)
    ensures |r| == |s|
    ensures '_' !in r
    ensures TitledFrom(ReplaceChar(s, '_', ' '), r)
    ensures forall i :: 0 <= i < |s| ==> (r[i] == ' ' <==> s[i] == '_' || s[i] == ' ')
  {
    var t := ReplaceChar(s, '_', ' ');
    TitleIsTitled(t);
    TitleKeepsUncased(t, '_');
    TitleKeepsUncased(t, ' ');
    Title(t)
  }

  /** A label is already in its final form: humanizing it again changes nothing. */
  lemma HumanizeIdempotent(s: string)
    ensures Humanize(Humanize(s)) == Humanize(s)
  {
    var r := Humanize(s);
    assert ReplaceChar(r, '_', ' ') == r;
    TitleIdempotent(ReplaceChar(s, '_', ' '));
  }

  /** `get_action_display`: the configured name of the action; else, for a `deduct:`
      action, the reason after the first colon; else the humanized action. `config` maps
      each configured action to its `name`. */
  function ActionDisplay(action: string, config: map<string, string>): (r: string)
    ensures action in config ==> r == config[action]
    ensures action !in config && StartsWith(action, "deduct:") ==>
              |r| >= 18 && r[..18] == "Points deduction: "
    ensures action !in config && !StartsWith(action, "deduct:") ==> |r| == |action| && '_' !in r
  {
    if action in config then config[action]
    else if StartsWith(action, "deduct:") then
      assert action[..7][6] == ':';
      "Points deduction: " + AfterFirst(action, ':')
    else Humanize(action)
  }

  /** The three cases of `get_action_display`; the reason of a deduction is everything
      after `deduct:`, later colons included. */
  lemma ActionDisplaySpec(action: string, config: map<string, string>)
    ensures action in config ==> ActionDisplay(action, config) == config[action]
    ensures action !in config && StartsWith(action, "deduct:") ==>
              ActionDisplay(action, config) == "Points deduction: " + action[7..]
    ensures action !in config && !StartsWith(action, "deduct:") ==>
              ActionDisplay(action, config) == Humanize(action) && '_' !in ActionDisplay(action, config)
  {
    if action !in config && StartsWith(action, "deduct:") {
      assert action[6] == ':';
      assert ':' !in action[..6] by {
        assert action[..6] == "deduct";
      }
      var r := AfterFirst(action, ':');
      var k := |action| - |r| - 1;
      assert action[k] == ':';
      assert k == 6;
    }
  }

  /** `get_content_type_display`: the humanized model name. */
  function ContentTypeDisplay(model: string): (r: string)
    ensures |r| == |model| && '_' !in r
    ensures TitledFrom(ReplaceChar(model, '_', ' '), r)
  {
    Humanize(model)
  }

  /** `get_interaction_type_display`: the name of the interaction type registered for the
      code, or the humanized code when none is. */
  function InteractionTypeDisplay(code: string, registered: Option<string>): (r: string)
    ensures registered.Some? ==> r == registered.value
    ensures registered.None? ==> |r| == |code| && '_' !in r && TitledFrom(ReplaceChar(code, '_', ' '), r)
  {
    match registered
    case Some(name) => name
    case None => Humanize(code)
  }
}
