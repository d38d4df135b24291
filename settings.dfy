/**
 * The plugin's settings: the fixed five-field definition, the sanitising
 * callback WordPress runs before the option is saved, the read-back of the
 * stored option, and its projection onto the GraphQL `NyassobiSettings` type.
 */
module Settings {
  import opened Php
  import opened WordPress

  const ContactEmailKey := "contact_email"
  const SignupFormUrlKey := "signup_form_url"
  const ParentalAgreementUrlKey := "parental_agreement_url"
  const AssociationStatusUrlKey := "association_status_url"
  const InternalRulesUrlKey := "internal_rules_url"

  /** The keys under which the option stores the five settings. */
  function SettingKeys(): set<string>
  {
    {ContactEmailKey, SignupFormUrlKey, ParentalAgreementUrlKey, AssociationStatusUrlKey, InternalRulesUrlKey}
  }

  /** The four settings that hold a URL. */
  function UrlKeys(): set<string>
  {
    {SignupFormUrlKey, ParentalAgreementUrlKey, AssociationStatusUrlKey, InternalRulesUrlKey}
  }

  /** Which sanitiser a field goes through, and which input the settings page renders. */
  datatype FieldType = EmailField | UrlField

  datatype Field = Field(key: string, kind: FieldType)

  /** The keys of a sequence of fields. */
  function KeysOf(fields: seq<Field>): set<string>
  {
    if fields == [] then {} else KeysOf(fields[..|fields| - 1]) + {fields[|fields| - 1].key}
  }

  /**
   * The settings fields, in the order the page shows them: one email field
   * and four URL fields, each under its own key.
   */
  function FieldsDefinition(): (fields: seq<Field>)
    ensures |fields| == 5
    ensures forall i, j :: 0 <= i < j < |fields| ==> fields[i].key != fields[j].key
    ensures forall i :: 0 <= i < |fields| ==> (fields[i].kind == EmailField <==> fields[i].key == ContactEmailKey)
  {
    var fields := [
      Field(ContactEmailKey, EmailField),
      Field(SignupFormUrlKey, UrlField),
      Field(ParentalAgreementUrlKey, UrlField),
      Field(AssociationStatusUrlKey, UrlField),
      Field(InternalRulesUrlKey, UrlField)
    ];
    assert fields[0].key == ContactEmailKey && fields[1].key == SignupFormUrlKey;
    assert fields[2].key == ParentalAgreementUrlKey && fields[3].key == AssociationStatusUrlKey;
    assert fields[4].key == InternalRulesUrlKey;
    fields
  }

  /** The definition's keys are exactly the five setting keys. */
  lemma DefinitionKeys()
    ensures KeysOf(FieldsDefinition()) == SettingKeys()
  {
    var fields := FieldsDefinition();
    assert KeysOf(fields[..1]) == {ContactEmailKey} by { assert fields[..1][..0] == []; }
    assert KeysOf(fields[..2]) == {ContactEmailKey, SignupFormUrlKey} by { assert fields[..2][..1] == fields[..1]; }
    assert KeysOf(fields[..3]) == KeysOf(fields[..2]) + {ParentalAgreementUrlKey} by { assert fields[..3][..2] == fields[..2]; }
    assert KeysOf(fields[..4]) == KeysOf(fields[..3]) + {AssociationStatusUrlKey} by { assert fields[..4][..3] == fields[..3]; }
    assert KeysOf(fields) == KeysOf(fields[..4]) + {InternalRulesUrlKey} by { assert fields[..4] == fields[..|fields| - 1]; }
  }

  /** The raw value of one field: `isset($input[$key]) ? (string) $input[$key] : ''`. */
  function RawSetting(input: Option<map<string, Value>>, key: string): (raw: string)
    ensures input.None? ==> raw == ""
    ensures input.Some? && !Isset(input.value, key) ==> raw == ""
    ensures input.Some? && Isset(input.value, key) ==> raw == ToString(input.value[key])
    ensures input.Some? && key in input.value && input.value[key].Str? ==> raw == input.value[key].s
  {
    match input
    case None => ""
    case Some(a) => StringOrEmpty(a, key)
  }

  /** The sanitiser a field's type selects. */
  function SanitizeField(host: Host, field: Field, raw: string): string
  {
    if field.kind == EmailField then host.sanitizeEmail(raw) else host.escUrlRaw(raw)
  }

  /**
   * The `foreach` of `sanitize_settings`: every field of the definition,
   * keyed by its own key, holds its raw input value through the sanitiser its
   * type selects. The definition is a PHP array, so its keys are distinct.
   */
  method SanitizeFields(host: Host, input: Option<map<string, Value>>, fields: seq<Field>)
    returns (sanitized: map<string, string>)
    requires forall i, j :: 0 <= i < j < |fields| ==> fields[i].key != fields[j].key
    ensures sanitized.Keys == KeysOf(fields)
    ensures forall j :: 0 <= j < |fields| ==>
      fields[j].key in sanitized &&
      sanitized[fields[j].key] == SanitizeField(host, fields[j], RawSetting(input, fields[j].key))
  {
    sanitized := map[];
    var i := 0;
    while i < |fields|
      invariant 0 <= i <= |fields|
      invariant sanitized.Keys == KeysOf(fields[..i])
      invariant forall j :: 0 <= j < i ==> fields[j].key in sanitized
      invariant forall j :: 0 <= j < i ==>
        sanitized[fields[j].key] == SanitizeField(host, fields[j], RawSetting(input, fields[j].key))
    {
      var field := fields[i];
      var rawValue := RawSetting(input, field.key);
      if field.kind == EmailField {
        sanitized := sanitized[field.key := host.sanitizeEmail(rawValue)];
      } else {
        sanitized := sanitized[field.key := host.escUrlRaw(rawValue)];
      }
      assert fields[..i + 1][..i] == fields[..i];
      i := i + 1;
    }
    assert fields[..i] == fields;
  }

  /**
   * `sanitize_settings`: whatever the admin form posted (or null), the result
   * holds exactly the five defined keys; the contact email goes through the
   * email sanitiser and every URL through the URL sanitiser, a missing or null
   * entry being sanitised as "". The closing `array_filter` only drops null
   * values, and both sanitisers return strings, so it keeps every entry.
   */
  method SanitizeSettings(host: Host, input: Option<map<string, Value>>) returns (sanitized: map<string, string>)
    ensures sanitized.Keys == SettingKeys()
    ensures sanitized[ContactEmailKey] == host.sanitizeEmail(RawSetting(input, ContactEmailKey))
    ensures forall k :: k in UrlKeys() ==> k in sanitized && sanitized[k] == host.escUrlRaw(RawSetting(input, k))
  {
    var fields := FieldsDefinition();
    sanitized := SanitizeFields(host, input, fields);
    DefinitionKeys();
    assert fields[0].key == ContactEmailKey && fields[1].key == SignupFormUrlKey;
    assert fields[2].key == ParentalAgreementUrlKey && fields[3].key == AssociationStatusUrlKey;
    assert fields[4].key == InternalRulesUrlKey;
  }

  /**
   * `get_settings`: the stored option with every value cast to a string, or
   * an empty map when what is stored is not an array.
   */
  function GetSettings(stored: Value): (settings: map<string, string>)
    ensures !stored.Arr? ==> settings == map[]
    ensures stored.Arr? ==> settings.Keys == stored.entries.Keys
    ensures stored.Arr? ==> forall k :: k in settings ==> settings[k] == ToString(stored.entries[k])
  {
    match stored
    case Arr(entries) => map k | k in entries :: ToString(entries[k])
    case _ => map[]
  }

  /** How WordPress stores the array `sanitize_settings` returned. */
  function Stored(saved: map<string, string>): Value
  {
    Arr(map k | k in saved :: Str(saved[k]))
  }

  /** Reading back a saved settings array gives exactly what was saved. */
  lemma SavedSettingsReadBack(saved: map<string, string>)
    ensures GetSettings(Stored(saved)) == saved
  {
  }

  /** `$options[$key] ?? null` on the string map `get_settings` returns. */
  function Lookup(options: map<string, string>, key: string): Option<string>
  {
    if key in options then Some(options[key]) else None
  }

  /** A `NyassobiSettings` GraphQL field and the option key it reads. */
  datatype GraphQLField = GraphQLField(settingKey: string, outputName: string)

  function GraphQLFields(): seq<GraphQLField>
  {
    [ GraphQLField(ContactEmailKey, "contactEmail"),
      GraphQLField(SignupFormUrlKey, "signupFormUrl"),
      GraphQLField(ParentalAgreementUrlKey, "parentalAgreementUrl"),
      GraphQLField(AssociationStatusUrlKey, "associationStatusUrl"),
      GraphQLField(InternalRulesUrlKey, "internalRulesUrl") ]
  }

  function GraphQLOutputNames(): set<string>
  {
    {"contactEmail", "signupFormUrl", "parentalAgreementUrl", "associationStatusUrl", "internalRulesUrl"}
  }

  /**
   * `format_settings_for_graphql`: always the five camelCase fields; a field
   * is null exactly when its snake_case key is missing from the stored array
   * (or nothing array-shaped is stored), and otherwise the stored value as a
   * string, an empty string included.
   */
  function FormatSettingsForGraphQL(stored: Value): (view: map<string, Option<string>>)
    ensures view.Keys == GraphQLOutputNames()
    ensures forall i :: 0 <= i < |GraphQLFields()| ==>
      var f := GraphQLFields()[i];
      f.outputName in view &&
      (view[f.outputName] == None <==> !(stored.Arr? && f.settingKey in stored.entries)) &&
      (view[f.outputName].Some? ==> view[f.outputName].value == ToString(stored.entries[f.settingKey]))
  {
    var options := GetSettings(stored);
    map[
      "contactEmail" := Lookup(options, ContactEmailKey),
      "signupFormUrl" := Lookup(options, SignupFormUrlKey),
      "parentalAgreementUrl" := Lookup(options, ParentalAgreementUrlKey),
      "associationStatusUrl" := Lookup(options, AssociationStatusUrlKey),
      "internalRulesUrl" := Lookup(options, InternalRulesUrlKey)
    ]
  }

  /**
   * The GraphQL type exposes every defined setting, in definition order, each
   * under one of its output names.
   */
  lemma ProjectionCoversFields()
    ensures |GraphQLFields()| == |FieldsDefinition()|
    ensures forall i :: 0 <= i < |GraphQLFields()| ==>
      GraphQLFields()[i].settingKey == FieldsDefinition()[i].key && GraphQLFields()[i].outputName in GraphQLOutputNames()
  {
  }

  /**
   * Once a sanitised settings array has been saved, the GraphQL view has no
   * null field: each field is the saved string, empty or not.
   */
  lemma SavedSettingsFullyProjected(saved: map<string, string>)
    requires saved.Keys == SettingKeys()
    ensures forall i :: 0 <= i < |GraphQLFields()| ==>
      FormatSettingsForGraphQL(Stored(saved))[GraphQLFields()[i].outputName] == Some(saved[GraphQLFields()[i].settingKey])
  {
  }
}
