/** The settings page: one record of preferences, edited a key at a time. */
module Settings {

  import opened Json

  /** The record the page starts with. */
  function Defaults(): (s: Json)
    ensures s.Obj? && s.fields.Keys == {"notifications", "emailNotifications", "moderation", "publicProfile", "theme"}
    ensures Get(s, "notifications") == Bool(true) && Get(s, "emailNotifications") == Bool(true)
    ensures Get(s, "moderation") == Bool(true) && Get(s, "publicProfile") == Bool(false)
    ensures Get(s, "theme") == Str("light")
  {
    Obj(map["notifications" := Bool(true), "emailNotifications" := Bool(true), "moderation" := Bool(true),
            "publicProfile" := Bool(false), "theme" := Str("light")])
  }

  /** `{ ...settings, [key]: value }`. */
  function Changed(settings: Json, key: string, value: Json): Json {
    With(settings, map[key := value])
  }

  /** The change sets its key, leaves every other key of an object as it
      was, and repeating it changes nothing more. */
  lemma ChangeSpec(settings: Json, key: string, value: Json)
    requires settings.Obj?
    ensures Get(Changed(settings, key, value), key) == value
    ensures forall k :: k != key ==> Get(Changed(settings, key, value), k) == Get(settings, k)
    ensures Changed(Changed(settings, key, value), key, value) == Changed(settings, key, value)
  {
    var once := Changed(settings, key, value);
    assert once.fields + map[key := value] == once.fields;
  }

  /** Changing a key to the value it already has changes nothing. */
  lemma ChangeToSameIsNoOp(settings: Json, key: string)
    requires settings.Obj? && key in settings.fields
    ensures Changed(settings, key, Get(settings, key)) == settings
  {
    assert settings.fields + map[key := settings.fields[key]] == settings.fields;
  }

  class SettingsPage {
    var settings: Json

    constructor ()
      ensures settings == Defaults()
    {
      settings := Defaults();
    }

    /** `handleChange(key, value)`. */
    method HandleChange(key: string, value: Json)
      modifies this
      ensures settings == Changed(old(settings), key, value)
    {
      settings := Changed(settings, key, value);
    }
  }
}
