/**
 * How `SeatsModel.__init__` (seats.py:451-489) picks the settings of each
 * district and builds it. A district with an entry of its own in
 * `settings` uses that entry, or the entry of the group it names; any
 * other district uses the `_default` entry. A missing key raises
 * `KeyError`, which stops the construction at the first district that
 * raises it; the districts with an entry of their own are removed from
 * `default_provinces`.
 */
module ModelSettings {
  import opened Wrappers
  import opened Seqs
  import opened Ballot
  import opened Provinces
  import opened ProvinceFacts

  /** The settings key of the districts without an entry of their own. */
  const Default: string := "_default"

  /**
   * One entry of `settings`: the optional `group` key naming another entry,
   * and `first_contested_seat`, the one key the modelled core reads.
   */
  datatype SettingsEntry = SettingsEntry(group: Option<string>, firstContestedSeat: Option<int>)

  /** One item of `province_list`: a district's name, `num_seats` and `parties_data`. */
  datatype ProvinceInput = ProvinceInput(name: string, numSeats: nat, partiesData: seq<PartyEntry>)

  /** The exceptions `SeatsModel.__init__` can raise. */
  datatype ModelError =
    | MissingDefault                         // `settings["_default"]`
    | MissingGroup(group: string)            // `settings[settings[p]["group"]]`
    | MissingFirstContestedSeat(key: string) // `p_settings["first_contested_seat"]`
    | BadProvince(province: string, error: ProvinceError)

  /** `[p for p in province_list]`: the keys of `province_list`, in order. */
  function InputNames(inputs: seq<ProvinceInput>): (r: seq<string>)
    ensures |r| == |inputs| && forall i :: 0 <= i < |inputs| ==> r[i] == inputs[i].name
  {
    seq(|inputs|, i requires 0 <= i < |inputs| => inputs[i].name)
  }

  /** The key of `settings` whose entry district `p` uses, or the lookup that fails. */
  function SettingsKey(settings: map<string, SettingsEntry>, p: string): (r: Result<string, ModelError>)
    ensures r.Ok? ==> r.value in settings
    ensures r.Err? ==> r.error.MissingDefault? || r.error.MissingGroup?
  {
    if p in settings then
      match settings[p].group
      case Some(g) => if g in settings then Ok(g) else Err(MissingGroup(g))
      case None => Ok(p)
    else if Default in settings then Ok(Default)
    else Err(MissingDefault)
  }

  /**
   * `_default` is only a fallback: a district with an entry of its own never
   * needs it, and one without an entry always gets it when it exists.
   */
  lemma DefaultIsFallback(settings: map<string, SettingsEntry>, p: string)
    ensures SettingsKey(settings, p) == Err(MissingDefault) <==> p !in settings && Default !in settings
    ensures p !in settings && Default in settings ==> SettingsKey(settings, p) == Ok(Default)
    ensures SettingsKey(settings, p) == Ok(Default) ==>
      p !in settings || p == Default || settings[p].group == Some(Default)
  {
  }

  /**
   * Districts naming the same group share its entry, whatever else their own
   * entries hold; the group's own `group` key is not followed.
   */
  lemma GroupSharesSettings(settings: map<string, SettingsEntry>, p: string, q: string, g: string)
    requires p in settings && q in settings
    requires settings[p].group == Some(g) && settings[q].group == Some(g)
    ensures SettingsKey(settings, p) == SettingsKey(settings, q)
    ensures g in settings <==> SettingsKey(settings, p) == Ok(g)
  {
  }

  /** The district `input` builds with its settings, or the exception that stops it. */
  function ProvinceFor(settings: map<string, SettingsEntry>, input: ProvinceInput): Result<Province, ModelError> {
    match SettingsKey(settings, input.name)
    case Err(e) => Err(e)
    case Ok(key) =>
      match settings[key].firstContestedSeat
      case None => Err(MissingFirstContestedSeat(key))
      case Some(fcs) =>
        match ProvinceOf(input.name, input.numSeats, input.partiesData, fcs)
        case Err(e) => Err(BadProvince(input.name, e))
        case Ok(prov) => Ok(prov)
  }

  /** A district as the `Province` constructor builds it from its own fields, with distinct party names. */
  ghost predicate WellBuilt(prov: Province) {
    && ProvinceOf(prov.name, prov.numSeats, prov.partiesData, prov.firstContestedSeat) == Ok(prov)
    && DistinctNames(prov.partiesData)
  }

  /**
   * A built district is the `Province` constructor's result on the
   * district's input and the `first_contested_seat` of its settings entry.
   */
  lemma ProvinceForBuilds(settings: map<string, SettingsEntry>, input: ProvinceInput)
    requires DistinctNames(input.partiesData)
    ensures var r := ProvinceFor(settings, input);
      r.Ok? ==>
        && SettingsKey(settings, input.name).Ok?
        && settings[SettingsKey(settings, input.name).value].firstContestedSeat == Some(r.value.firstContestedSeat)
        && r.value.name == input.name && r.value.numSeats == input.numSeats
        && r.value.partiesData == input.partiesData
        && WellBuilt(r.value) && Consistent(r.value)
  {
    var r := ProvinceFor(settings, input);
    if r.Ok? {
      var key := SettingsKey(settings, input.name).value;
      var fcs := settings[key].firstContestedSeat.value;
      Built(input.name, input.numSeats, input.partiesData, fcs, r.value);
      BuiltIsConsistent(input.name, input.numSeats, input.partiesData, fcs, r.value);
    }
  }

  /**
   * The districts `__init__` builds, in `province_list` order, or the
   * exception of the first district that raises one.
   */
  function ProvincesOf(settings: map<string, SettingsEntry>, inputs: seq<ProvinceInput>)
    : (r: Result<seq<Province>, ModelError>)
    ensures r.Ok? ==> |r.value| == |inputs|
    ensures r.Ok? ==> forall i :: 0 <= i < |inputs| ==> ProvinceFor(settings, inputs[i]) == Ok(r.value[i])
  {
    if inputs == [] then Ok([])
    else
      match ProvincesOf(settings, inputs[..|inputs| - 1])
      case Err(e) => Err(e)
      case Ok(provs) =>
        match ProvinceFor(settings, inputs[|inputs| - 1])
        case Err(e) => Err(e)
        case Ok(prov) => Ok(provs + [prov])
  }

  /**
   * The construction fails exactly when some district raises, and then with
   * the exception of the first such district.
   */
  lemma {:induction false} FirstErrorWins(settings: map<string, SettingsEntry>, inputs: seq<ProvinceInput>)
    ensures ProvincesOf(settings, inputs).Err? <==>
      exists i :: 0 <= i < |inputs| && ProvinceFor(settings, inputs[i]).Err?
    ensures ProvincesOf(settings, inputs).Err? ==>
      exists i :: 0 <= i < |inputs| && ProvinceFor(settings, inputs[i]) == Err(ProvincesOf(settings, inputs).error)
        && forall j :: 0 <= j < i ==> ProvinceFor(settings, inputs[j]).Ok?
  {
    if inputs != [] {
      var init := inputs[..|inputs| - 1];
      FirstErrorWins(settings, init);
      assert forall i :: 0 <= i < |init| ==> init[i] == inputs[i];
      if ProvincesOf(settings, init).Ok? {
        assert forall i :: 0 <= i < |init| ==> ProvinceFor(settings, inputs[i]).Ok?;
      }
    }
  }

  /** One district further: the prefix's districts and the next one, or the first exception. */
  lemma ProvincesOfStep(settings: map<string, SettingsEntry>, inputs: seq<ProvinceInput>, i: nat, provs: seq<Province>)
    requires i < |inputs| && ProvincesOf(settings, inputs[..i]) == Ok(provs)
    ensures ProvincesOf(settings, inputs[..i + 1]) ==
      match ProvinceFor(settings, inputs[i])
      case Err(e) => Err(e)
      case Ok(prov) => Ok(provs + [prov])
  {
    assert inputs[..i + 1][..i] == inputs[..i];
  }

  /** Once a prefix of the districts raises, the whole construction raises the same exception. */
  lemma {:induction false} ErrorPersists(settings: map<string, SettingsEntry>, inputs: seq<ProvinceInput>, i: nat)
    requires i <= |inputs| && ProvincesOf(settings, inputs[..i]).Err?
    ensures ProvincesOf(settings, inputs) == ProvincesOf(settings, inputs[..i])
    decreases |inputs| - i
  {
    if i < |inputs| {
      assert inputs[..i + 1][..i] == inputs[..i];
      ErrorPersists(settings, inputs, i + 1);
    } else {
      assert inputs[..i] == inputs;
    }
  }

  /** `default_provinces` once the loop is over: the districts without an entry of their own, in order. */
  function Unlisted(names: seq<string>, settings: map<string, SettingsEntry>): (r: seq<string>)
    ensures |r| <= |names|
  {
    if names == [] then []
    else
      var last := names[|names| - 1];
      Unlisted(names[..|names| - 1], settings) + (if last in settings then [] else [last])
  }

  /** `default_provinces` keeps exactly the districts without an entry of their own. */
  lemma {:induction false} UnlistedMembers(names: seq<string>, settings: map<string, SettingsEntry>)
    ensures forall p :: p in Unlisted(names, settings) <==> p in names && p !in settings
  {
    if names != [] {
      var init := names[..|names| - 1];
      UnlistedMembers(init, settings);
      assert names == init + [names[|names| - 1]];
    }
  }

  /** One name further, `Unlisted` keeps the name exactly when it has no entry of its own. */
  lemma UnlistedStep(names: seq<string>, settings: map<string, SettingsEntry>, i: nat)
    requires i < |names|
    ensures Unlisted(names[..i + 1], settings) ==
      Unlisted(names[..i], settings) + (if names[i] in settings then [] else [names[i]])
  {
    assert names[..i + 1][..i] == names[..i];
  }

  /** The keys of a dict are distinct, and so are the ones left in `default_provinces`. */
  lemma {:induction false} UnlistedDistinct(names: seq<string>, settings: map<string, SettingsEntry>)
    requires Distinct(names)
    ensures Distinct(Unlisted(names, settings))
  {
    if names != [] {
      var init := names[..|names| - 1];
      assert forall i :: 0 <= i < |init| ==> init[i] == names[i];
      UnlistedDistinct(init, settings);
      UnlistedMembers(init, settings);
    }
  }
}
