/** The permission gates of the command handlers in index.js, gathered into
    one capability check. */
module Permissions {

  /** The two Discord permission flags the bot inspects. */
  datatype Permission = Administrator | ManageGuild

  /** The invoking guild member: its permission flags and the names of its roles. */
  datatype Member = Member(permissions: set<Permission>, roleNames: seq<string>)

  /** Role names that may award points without Administrator. */
  const AllowedRoles: seq<string> := ["Coaches", "Moderators"]

  /** discord.js `permissions.has(p)`: checks Administrator as well, so an
      administrator holds every permission. */
  predicate Has(m: Member, p: Permission) {
    Administrator in m.permissions || p in m.permissions
  }

  /** `roles.cache.some(role => ALLOWED_ROLES.includes(role.name))` */
  predicate HasAllowedRole(m: Member) {
    exists i | 0 <= i < |m.roleNames| :: m.roleNames[i] in AllowedRoles
  }

  /** What a handler asks of its caller before it does anything. */
  datatype Capability =
    | AwardPoints        // /good
    | ResetPoints        // /reset
    | SetupMarketplace   // /marketplace-setup
    | PostMarketplace    // /marketplace-post
    | ReviewSubmissions  // approve, request images, decline buttons

  function Allows(m: Member, c: Capability): (ok: bool)
    // an administrator may do everything
    ensures Administrator in m.permissions ==> ok
    // without Administrator, Manage Server or an allowed role nothing is permitted
    ensures Administrator !in m.permissions && ManageGuild !in m.permissions && !HasAllowedRole(m) ==> !ok
    // an allowed role only ever grants awarding points
    ensures Administrator !in m.permissions && ManageGuild !in m.permissions ==> (ok <==> c == AwardPoints && HasAllowedRole(m))
    // Manage Server grants reset and review, and never setup or post
    ensures Administrator !in m.permissions && ManageGuild in m.permissions ==>
      (ok <==> c == ResetPoints || c == ReviewSubmissions || (c == AwardPoints && HasAllowedRole(m)))
  {
    match c
    case AwardPoints => Has(m, Administrator) || HasAllowedRole(m)
    case ResetPoints => Has(m, ManageGuild)
    case SetupMarketplace => Has(m, Administrator)
    case PostMarketplace => Has(m, Administrator)
    case ReviewSubmissions => Has(m, Administrator) || Has(m, ManageGuild)
  }
}
