/** The runtime values the managers work on: types as reflection shows them, and bound settings instances. */
module Types {
  import opened Wrappers

  /**
   * A settings type as `GetKeyByType` sees it through reflection: its identity (the full name),
   * its simple name (`Type.Name`) and, when the type carries a `ConfigurationKey` attribute, that
   * attribute's `Name`.
   */
  datatype TypeId = TypeId(fullName: string, name: string, configurationKey: Option<string>)

  /**
   * A settings instance produced by binding a configuration section: its runtime type and the
   * property values the binder set. A property missing from `properties` is null.
   */
  datatype Settings = Settings(settingsType: TypeId, properties: map<string, string>)

  /** The value of property `p` of `s`, None when it is null. */
  function PropertyValue(s: Settings, p: string): Option<string>
  {
    if p in s.properties then Some(s.properties[p]) else None
  }
}
