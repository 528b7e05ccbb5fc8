/** Access control: the administrator and whitelist filters and the two command guards.
    The user id of the incoming message is a parameter; replying is modelled as the
    decision to refuse together with the text of the reply. */
module Auth {
  import opened Text
  import opened Config

  /** The administrator filter: the sender is one of the configured administrators. */
  predicate IsAdmin(settings: Settings, userId: int) {
    userId in settings.adminIds
  }

  /** The whitelist filter, checked in the source's order: an open bot lets everyone
      through, then administrators, then whitelisted users. */
  function IsWhitelisted(settings: Settings, userId: int): (allowed: bool)
    ensures allowed <==>
      !settings.requireWhitelist || userId in settings.adminIds || userId in settings.whitelistUsers
  {
    if !settings.requireWhitelist then true
    else if userId in settings.adminIds then true
    else if userId in settings.whitelistUsers then true
    else false
  }

  /** What a guarded command does with a message: run the command, or refuse with a reply. */
  datatype Guard = Proceed | Refuse(reply: string)

  const AdminOnlyReply: string :=
    "\U{26D4} Akses ditolak. Perintah ini hanya untuk administrator."
  const WhitelistOnlyReply: string :=
    "\U{26D4} Akses ditolak. Bot ini memerlukan whitelist untuk digunakan.\n"
    + "Hubungi administrator untuk mendapatkan akses."

  /** `admin_required`: the command runs only for administrators. */
  function AdminRequired(settings: Settings, userId: int): (g: Guard)
    ensures g.Proceed? <==> IsAdmin(settings, userId)
    ensures g.Refuse? ==> g.reply == AdminOnlyReply
  {
    if userId !in settings.adminIds then Refuse(AdminOnlyReply) else Proceed
  }

  /** `whitelist_required`: when a whitelist is required, the command runs only for users
      on it or administrators. */
  function WhitelistRequired(settings: Settings, userId: int): (g: Guard)
    ensures g.Refuse? ==> g.reply == WhitelistOnlyReply
  {
    if settings.requireWhitelist && userId !in settings.whitelistUsers && userId !in settings.adminIds
    then Refuse(WhitelistOnlyReply)
    else Proceed
  }

  /** The guard and the filter, written separately in the source, make the same decision. */
  lemma GuardAgreesWithFilter(settings: Settings, userId: int)
    ensures WhitelistRequired(settings, userId).Proceed? <==> IsWhitelisted(settings, userId)
  {
  }

  /** The administrator guard is the stricter one: whoever passes it passes the whitelist. */
  lemma AdminGuardIsStricter(settings: Settings, userId: int)
    ensures AdminRequired(settings, userId).Proceed? ==> WhitelistRequired(settings, userId).Proceed?
  {
  }

  /** Without a required whitelist every user reaches whitelisted commands, while
      administrator commands stay closed to everyone not configured as administrator. */
  lemma OpenBot(settings: Settings, userId: int)
    requires !settings.requireWhitelist
    ensures WhitelistRequired(settings, userId) == Proceed
    ensures AdminRequired(settings, userId) == Proceed <==> userId in settings.adminIds
  {
  }

  /** With no administrators configured, the administrator commands refuse everyone. */
  lemma NoAdministrators(settings: Settings, userId: int)
    requires settings.adminIds == []
    ensures AdminRequired(settings, userId) == Refuse(AdminOnlyReply)
  {
  }

  /** From the setting text to the decision: when the administrator ids were parsed from a
      setting that lists `ids` separated by commas, exactly those ids pass the guard. */
  lemma ConfiguredAdministrators(settings: Settings, ids: seq<nat>, userId: int)
    requires ids != [] && ParseIdList(Join(",", Numerals(ids))) == Ids(settings.adminIds)
    ensures AdminRequired(settings, userId).Proceed? <==> userId in ids
  {
    IdsRoundTrip(ids);
  }
}
