/** What the two dashboards, web_ui_boot_save.py and web_ui_bootstrap1.py,
    hold in common: the default target and how `/start` picks the target of a
    scan. */
module Dashboard {
  import opened Wrappers

  const DEFAULT_TARGET := "http://localhost:3000"

  /** Python truthiness of an optional string: present and not empty. */
  predicate Truthy(s: Option<string>) {
    s.Some? && s.value != ""
  }

  /** `data.get("target") or DEFAULT_TARGET`: a missing or empty target falls
      back to the default, any other is kept. */
  function RequestedTarget(requested: Option<string>): (t: string)
    ensures t != ""
    ensures Truthy(requested) ==> t == requested.value
    ensures !Truthy(requested) ==> t == DEFAULT_TARGET
  {
    if Truthy(requested) then requested.value else DEFAULT_TARGET
  }
}
