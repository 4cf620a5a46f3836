# VIP role relay: a Dafny model

The repository is a serverless webhook (`api/bot.js`). A payment system sends it a
POST, and it grants or revokes a "VIP" role on a member of one fixed Discord server.
Each real change is announced in an audit channel. Under the discord.js calls, the
file holds three pieces of decision logic, and this project models all three with
the Discord platform abstracted away:

- **Role resolution** (`RoleResolver`). The `roleType` label maps to the monthly role
  when it contains `Mensuel`, otherwise to the lifetime role when it contains `Vie`,
  otherwise to the error `Type de rôle inconnu: <label>`. The match is a
  case-sensitive substring test (`Js.Includes`). It is proved against an independent
  "occurs at some index" definition.
- **Grant and revoke** (`VipRoles`). The platform is a `Server` value. It records
  whether the server is cached, maps each member id to a tag and a role set, names
  the server's roles, records whether the audit channel is cached, and keeps the
  append-only audit log. `Grant` and `Revoke` specify `giveVipRole` and
  `removeVipRole`. Both check the server, then the member, then the label, then the
  role, then whether the role is already held. Every thrown error becomes a
  `Failed` result, so neither operation throws. The class `Platform` does the same
  steps in place (`GiveVipRole`, `RemoveVipRole`, `LogVipAction`), and each method
  is proved equal to its specification function.
- **Request handling** (`Handler`). `Route` is the handler's decision chain: OPTIONS,
  the GET paths, then for POST the secret, the required fields and the action; all
  else is 405. `Serve` pairs the response with the resulting platform state.
  `Handle` runs the chosen operation on a `Platform`.

Body fields and the configured secret are `Js.Field` values: absent (`undefined`),
`null`, or a string. The handler compares secrets with strict equality. So when the
`WEBHOOK_SECRET` environment variable is unset, a POST that sends no secret passes
the 401 check (`Handler.UnsetSecretAdmitsMissingSecret`). The model keeps this
behaviour as written.

The model takes the monthly and lifetime role ids from `api/bot.js:8-9`. The
configured secret is a parameter. The audit log records `(member id, role id,
action)` for each post.

## Model

| member | source | states |
|---|---|---|
| `Js.Includes` | api/bot.js:55-57 | `s.includes(sub)` is true exactly when `sub` occurs at some index of `s` |
| `RoleResolver.Resolve` | api/bot.js:54-61 | a label containing `Mensuel` gives the monthly id, even if it also contains `Vie`; otherwise a label containing `Vie` gives the lifetime id; any other label is an error quoting the label |
| `RoleResolver.MonthlyMarkerTakesPriority` | api/bot.js:55-58 | every label containing both `Mensuel` and `Vie` resolves to the monthly role |
| `RoleResolver.LifetimeLabelResolves` | api/bot.js:57-58 | every label containing `Vie` but not `Mensuel` resolves to the lifetime role |
| `RoleResolver.MarkersAreCaseSensitive` | api/bot.js:55-60 | `abonnement à vie` contains neither marker, so it is an unknown role type |
| `VipRoles.Logged` | api/bot.js:137-165 | an audit post appends exactly one entry when the channel is found; nothing happens otherwise, and nothing else changes |
| `VipRoles.Grant` | api/bot.js:42-87 | succeeds exactly when the server, member, label and role all resolve, and then the member holds the role; the only possible change is that member gaining that role; no member or role appears or disappears; the log grows by at most one `attribution` entry for that member and role, and only on a real change when the channel is found; any other outcome leaves the platform unchanged |
| `VipRoles.Revoke` | api/bot.js:90-134 | the mirror of `Grant`: on success the member lacks the role; the only possible change is losing that role; at most one `suppression` entry; any other outcome leaves the platform unchanged |
| `VipRoles.GrantWhenHeld` | api/bot.js:66-68 | granting a held role returns `Rôle déjà attribué` with the member's tag; roles and log are unchanged |
| `VipRoles.GrantWhenNotHeld` | api/bot.js:70-81 | granting a missing role adds exactly it; the result is `{member, role, action:'attribution'}`; one entry is appended when the channel exists |
| `VipRoles.RevokeWhenAbsent` | api/bot.js:114-116 | revoking a role the member lacks returns `Rôle déjà absent`; nothing changes |
| `VipRoles.RevokeWhenHeld` | api/bot.js:118-128 | revoking a held role removes exactly it; the result is `{member, role, action:'suppression'}`; one entry is appended when the channel exists |
| `VipRoles.UnknownMemberReportedFirst` | api/bot.js:49-52 | an unknown member is reported before the label is examined, by both grant and revoke (the revoke check is `api/bot.js:97-100`), even for an unrecognised label; nothing changes |
| `VipRoles.UnknownRoleTypeFails` | api/bot.js:54-61 | an unrecognised label on a known member is a failed result carrying `Type de rôle inconnu: <label>`; nothing changes |
| `VipRoles.ConfigurationErrorsFail` | api/bot.js:46-64 | a missing server or role is a failed result with the source's message for grant and for revoke; nothing changes |
| `VipRoles.GrantIsIdempotent` | api/bot.js:66-81 | a second identical grant changes nothing and succeeds exactly when the first did |
| `VipRoles.RevokeIsIdempotent` | api/bot.js:114-128 | a second identical revoke changes nothing and succeeds exactly when the first did |
| `VipRoles.RevokeUndoesGrant` | api/bot.js:66-128 | after a grant that changed something, the same revoke restores every member's roles; the log holds the attribution entry and then the suppression entry |
| `VipRoles.GrantUndoesRevoke` | api/bot.js:66-128 | after a revoke that changed something, the same grant restores every member's roles; the log holds the suppression entry and then the attribution entry |
| `VipRoles.Platform.LogVipAction` | api/bot.js:137-165 | the in-place audit post has the same effect as `Logged` |
| `VipRoles.Platform.GiveVipRole` | api/bot.js:42-87 | the in-place grant leaves the state and returns the result that `Grant` specifies |
| `VipRoles.Platform.RemoveVipRole` | api/bot.js:90-134 | the in-place revoke leaves the state and returns the result that `Revoke` specifies |
| `Handler.Route` | api/bot.js:168-253 | a preflight exactly for OPTIONS; the status probe exactly for GET on `/api/bot` or `/api/bot/status`, and the diagnostics probe exactly for GET on `/api/bot/test`; a 500 body error exactly for a POST without a body object; 405 exactly for other methods and other GET paths; for POST, 401 exactly when the secret differs; 400 for missing fields only after the secret matched; dispatch only with the right secret and both fields non-empty; an absent or falsy action, or `give`, means grant, and `remove` means revoke |
| `Handler.Reply` | api/bot.js:174-247 | the status of each branch that does not call an operation: 200 for preflight and probes, 401, 400, 405, and 500 for a body that cannot be destructured |
| `Handler.Serve` | api/bot.js:218-247 | only a dispatched operation changes the platform; its result is sent with status 200 even when `success` is false |
| `Handler.Handle` | api/bot.js:168-253 | the in-place handler returns the response and leaves the platform state that `Serve` specifies |
| `Handler.PreflightAlwaysEmpty` | api/bot.js:174-177 | OPTIONS is 200 with an empty body, whatever the URL and body |
| `Handler.MissingBodyIsServerError` | api/bot.js:218-251 | a POST whose body cannot be destructured fails at the destructuring, before the secret check, and is answered 500; the platform is untouched |
| `Handler.WrongSecretIsUnauthorized` | api/bot.js:224-227 | a wrong secret is 401 whatever the other fields, and the platform is untouched |
| `Handler.MissingFieldsAreRejected` | api/bot.js:229-231 | with the right secret, an absent, null or empty `discordId` or `roleType` is 400 and changes nothing |
| `Handler.ActionDispatch` | api/bot.js:233-244 | an absent, null, empty or `give` action runs `Grant`; `remove` runs `Revoke`; any other action is 400 with no change |
| `Handler.OtherRequestsNotAllowed` | api/bot.js:180-247 | a GET on an unknown path, or any method other than GET, POST and OPTIONS, is 405 and changes nothing |
| `Handler.UnsetSecretAdmitsMissingSecret` | api/bot.js:224-227 | with no configured secret (`undefined`), a complete POST that sends no secret is dispatched and answered 200 |
| `Handler.RepeatedGiveIsAlreadyGranted` | api/bot.js:235-244 | a give request repeated after one that succeeded gets 200 `Rôle déjà attribué` with the member's tag; no state change, no audit entry |
| `Handler.RemoveUnknownMemberIs200` | api/bot.js:237-244 | a remove request for an unknown member gets 200 with `{success:false, error:'Membre introuvable'}`; nothing changes |

## Left out

- Each grant and revoke is modelled as one atomic step. The source awaits between its "already held" check and the role change (`api/bot.js:66-70`, `114-118`) and again before the audit post. Overlapping requests can interleave at those points: two concurrent `give` requests for one member can both pass the check, both add the role, and post two `attribution` entries. The model does not capture this. `VipRoles.GrantIsIdempotent`, `VipRoles.RevokeIsIdempotent`, `Handler.RepeatedGiveIsAlreadyGranted` and the at-most-one-entry clauses hold only for requests that run one after another.
- Session management (`initDiscordClient`, `api/bot.js:19-39`) is not modelled. This covers the global client, login, the `ready` event and the login race under concurrent requests. A login failure, which the source folds into a failed result or a 500, is not modelled either.
- Platform errors from `member.roles.add` and `member.roles.remove` are not modelled. The source folds them into `{success:false}`, and the model treats these calls as always succeeding. The member lookup is a key lookup: any fetch failure counts as "member not found", as the source's `.catch(() => null)` does.
- `VipRoles.Logged` records only `(member, role, action)`. The embed layout (emoji, title, colour, thumbnail, timestamp, footer) is formatting, and a failed `channel.send` is not modelled; the source swallows it.
- The bodies of the GET status and test responses read live caches and the clock. The model keeps only the branch and its 200 status (`StatusReport`, `DiagnosticsReport`).
- `Handler.Reply` does not model the message text of the 500 response for a missing body; it is the engine's TypeError message.
- CORS headers, `console` logging and the unused `paymentInfo` field are not modelled. `process.env` reads become parameters: the configured secret, plus the role ids as constants.
- Body fields are absent, `null` or a string. Other JSON values (numbers, booleans, arrays, objects) are not modelled; for those, `roleType.includes` or the member fetch would behave differently.
