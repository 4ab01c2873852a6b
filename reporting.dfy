/** The key report of `ReportingConfigurationManager`. */
module Reporting {
  import opened Wrappers
  import opened Formatting

  /** The `ConfigurationKeyReport` template a reporting manager starts with. */
  const DefaultConfigurationKeyReport: string := "[ConfigurationKey]: '{0}'"

  /** With the default template, the line reported for `key` is the key quoted after the tag. */
  lemma DefaultKeyReportLine(key: string)
    ensures Format(DefaultConfigurationKeyReport, [key]) == Some("[ConfigurationKey]: '" + key + "'")
  {
    var prefix := "[ConfigurationKey]: '";
    assert NoBraces(prefix) && NoBraces("'");
    assert DefaultConfigurationKeyReport == prefix + ['{', '0', '}'] + "'";
    PlaceholderBetween(prefix, "'", key);
  }
}
