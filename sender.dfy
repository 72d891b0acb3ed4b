/** The sender address: the `from` argument of the constructor and `getDefaultFrom`. */
module Sender {
  import opened Wrappers
  import opened Php

  /**
   * The `admin_email` configuration value: a string, an array of address => name pairs (in
   * array order, no address twice), or anything else (unset, null, a number ...).
   */
  datatype AdminEmail =
    | AdminAddress(address: string)
    | AdminAddresses(entries: seq<(string, string)>)
    | AdminUnusable

  /** A sender as PHP passes it around: an address string or an array of address => name pairs. */
  datatype From = Address(address: string) | Mailboxes(entries: seq<(string, string)>)

  /** PHP truthiness of `string|array`: a truthy string, or a non-empty array. */
  predicate FromTruthy(f: From) {
    match f
    case Address(a) => Truthy(a)
    case Mailboxes(e) => |e| > 0
  }

  /** The `RuntimeException('Host not defined')` of `getDefaultFrom`. */
  datatype ConfigError = HostNotDefined

  /** The sender synthesised from the site host. */
  function NoReplyAddress(siteHost: string): string {
    "no-reply@" + siteHost
  }

  /**
   * `getDefaultFrom`: the first pair of a non-empty `admin_email` array, else an `admin_email`
   * string, and when that choice is empty, "no-reply@" followed by the site host; it fails when the
   * host is empty as well. Whatever it returns is a truthy sender.
   */
  function DefaultFrom(admin: AdminEmail, siteHost: string): (r: Result<From, ConfigError>)
    ensures r.Ok? ==> FromTruthy(r.value)
    ensures r.Err? <==>
      && !(admin.AdminAddresses? && |admin.entries| > 0)
      && !(admin.AdminAddress? && Truthy(admin.address))
      && !Truthy(siteHost)
    ensures admin.AdminAddresses? && |admin.entries| > 0 ==> r == Ok(Mailboxes([admin.entries[0]]))
    ensures admin.AdminAddress? && Truthy(admin.address) ==> r == Ok(Address(admin.address))
    ensures (!(admin.AdminAddresses? && |admin.entries| > 0) && !(admin.AdminAddress? && Truthy(admin.address))
             && Truthy(siteHost)) ==> r == Ok(Address(NoReplyAddress(siteHost)))
  {
    var configured :=
      if admin.AdminAddresses? && |admin.entries| > 0 then Mailboxes([admin.entries[0]])
      else if admin.AdminAddress? then Address(admin.address)
      else Address("");
    if FromTruthy(configured) then Ok(configured)
    else if !Truthy(siteHost) then Err(HostNotDefined)
    else
      assert NoReplyAddress(siteHost)[0] == 'n';
      Ok(Address(NoReplyAddress(siteHost)))
  }

  /** The constructor's choice: the given sender when it is truthy, `getDefaultFrom` otherwise. */
  function ConstructorFrom(from: From, admin: AdminEmail, siteHost: string): (r: Result<From, ConfigError>)
    ensures FromTruthy(from) ==> r == Ok(from)
    ensures !FromTruthy(from) ==> r == DefaultFrom(admin, siteHost)
    ensures r.Ok? ==> FromTruthy(r.value)
  {
    if FromTruthy(from) then Ok(from) else DefaultFrom(admin, siteHost)
  }
}
