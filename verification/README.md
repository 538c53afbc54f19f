# Verification of cloud-twin's stateful and wire-level core

cloud-twin is a local stand-in for cloud services. This project models the five parts of it where being wrong is easy
and hard to see, and proves what they promise for every input, every run or every byte stream:

- **Cognito grants and sessions** (`CognitoTables`, `CognitoGrants`, `CognitoService`, `CognitoLog`, `CognitoServer`,
  `CognitoGrowth`, `CognitoSteps`, `CognitoInvariant`, `CognitoTheorems`, `CognitoRequests`, `CognitoSignIns`,
  `CognitoEndings`, `CognitoExamples`, `CognitoStore`, `CognitoHandlers`, `CognitoProgram`). Tables are maps under their primary keys. Every transaction commits a list of
  events or nothing; `Effect` says which rows an event writes, and the tables are always the replay of the whole
  history. A run is any list of timed commands. Requests made of several transactions (hosted-UI login, the token
  endpoint) are processes that hold the client, approval or user an earlier transaction read, so any other step may
  come between. `CognitoInvariant` proves that every step keeps the history sound; `CognitoGrants.GrantFate` turns a
  sound history into the law behind all token theorems: a grant is usable exactly while nothing since its birth has
  ended it. `CognitoRequests` and `CognitoSignIns` say for each request, on its step alone, exactly when it is answered,
  with which tables and tokens; `CognitoEndings` says which requests end which grants, so a grant's fate over a run is
  told by the requests answered in it. `CognitoStore` and `CognitoHandlers` are the service and its handlers as they run, reading and writing
  rows; `CognitoProgram.Server` runs each command as one transaction and rolls it back when it fails, and `Serve`
  proves that over every run this program's tables, signed tokens and answers are those of the state machine, so the
  theorems hold of it.
- **The SMTP server** (`Smtp`, `SmtpServer`, `SmtpTheorems`, `SmtpStandard`, `Utf8`). The command loop and the DATA reader
  share one byte stream. Command lines are cut at 8192 bytes, decoded as UTF-8 with replacement characters, trimmed and
  parsed. `SmtpStandard` defines a reader of the mail standard's CR LF lines on its own and compares the two.
- **The AWS Query decoder** (`Query`, `QueryTheorems`, `QueryOrder`) and **the XML tree builder** (`Xml`, `XmlTheorems`).
- **EventStream bodies** (`EventStream`, `EventStreamTheorems`), read back by a decoder written from the documented
  layout.
- **The Bedrock scenario engine** (`Generator`, `Bedrock`, `BedrockTheorems`).

`Text`, `Sequences` and `Options` hold what several parts share. `dafny verify dfyconfig.toml` checks everything.

Things the proofs bring out about the code as it is, each with its exact condition and an input:

- A code exchange that is refused with `invalid_grant` still consumes the code. The request fails and consumes nothing
  exactly when the client's code flow is off, or everything else is in order but the pool is gone
  (`ExchangeConsumesCode`); a client updated after the code was issued (`FlowOffKeepsCode`) and a login overtaken by the
  deletion of its pool (`PoolGoneKeepsCode`) reach these.
- A login overtaken by the deletion and re-creation of its user ends up as the new user's. The tokens of a code, and the
  user of a session, are those of the user who logged in exactly when that very user was still stored when the code was
  issued or the session started (`CodeOfLogin`, `SessionOfLogin`, `CodeForAnother`). In the implicit flow such a token even
  names another user than the one it is accepted for; in every other flow it never does (`SubFate`, `TokenForAnother`).
- What ends a grant is exactly what `CognitoEndings.Ends` lists (`StepEnds`, `LifeByRequests`). Deleting a client ends its
  refresh tokens only, and its access tokens live on; disabling a user ends its sessions only, and enabling it again
  revives its tokens; signing out leaves authorization codes and challenges usable.
- A scope list survives being stored and read back exactly when every entry is a non-empty name without white space
  (`Text.JoinSurvivesSplit`, `SpacedEntryLost`).
- RFC 5321 ends lines in CR LF only (sections 2.3.8 and 4.1.1.4) and deletes any leading dot (section 4.5.2); the DATA
  reader ends them in LF, takes `.` before a bare LF, or at the end of the connection, for the end as well, and shortens
  only a doubled leading dot. `StandardAgrees` says for every byte stream exactly when the two read the same; without
  bare LFs that is when the message ends in `.` CR LF and no line begins with a lone dot, or it is too big either way
  (`CrLfAgrees`), hence always on what a client stuffs from CR LF lines (`StuffedCrLfAgrees`). They differ on `.a` CR LF
  (`LoneDotKept`), on a dot between bare LFs (`BareLfEnds`) and on a message cut off by the end of the connection, which
  the server delivers (`CutOffDelivered`).
- A message whose last line is not ended swallows the terminator (`DataRoundTrip`, `UnendedMessageLost`).
- Query parameters are visited in the order of a hash table. The order never shows in the decoded value exactly when a path
  that extends another does so by `member` and `entry` only and carries the same text, and the paths that extend one path
  lie on one chain (`OrderIrrelevant`; `OrderMatters`, `OrderHidden`).
- Objects that are empty, all-numeric or a lone `member`/`entry` cannot come back (`QueryRoundTrip`, `NumericKeyLost`).
- An empty-element tag loses its attributes: a document comes back with all the attributes of its tags, a value with
  malformed escapes read as empty, exactly when no such tag has any (`AttributesKept`, `AttributeLost`).
- Fixed-size chunking keeps a text exactly when no block ends inside a character (`BlocksJoin`, `CharacterCut`).
- Prompts are lower-cased before rules are compared and rule texts are not. A rule ignores letter case, and can match at
  all, exactly when its text is all lower case (`CaseIgnoredExactly`, `CapitalsNeverMatch`, `CapitalMissed`).

## Model

| member | source | states |
|---|---|---|
| `CognitoGrants.GrantFate` | src/aws/cognito/service.rs:1025-1476 | in every orderly history a family, refresh token, code, session or challenge is usable in the tables exactly if no event since its birth ended it |
| `CognitoTables.ReplayAppend` | src/aws/cognito/service.rs:51-70 | the tables after a committed transaction are the replay of the longer history |
| `CognitoInvariant.StepInv` | src/aws/cognito/service.rs:51-70 | every transaction of every request, whatever stale values it carries, keeps the history sound, the tables its replay, and pending requests backed by it |
| `CognitoInvariant.RunInv` | src/aws/cognito/service.rs:51-70 | hence every run from empty tables keeps the invariant |
| `CognitoTheorems.FailureVanishes` | src/aws/cognito/service.rs:51-70 | a run with one more failed API call, anywhere in it, ends like the run without it |
| `CognitoTheorems.FailureLeavesEverything` | src/aws/cognito/service.rs:51-70 | any failed step, token endpoint and hosted UI included, leaves tables, history and identifiers as they were, whatever it had consumed by then; a failed call changes nothing, a failed step of a request drops only that request |
| `CognitoTheorems.AccessTokenFate` | src/aws/cognito/service.rs:1273-1308 | a minted access token is accepted, as the user it was minted for, iff unexpired, pool and user exist, user enabled, and since issue no revocation of its family, sign-out, user or pool deletion; all tokens of a family share that fate |
| `CognitoTheorems.FamilyFate` | src/aws/cognito/service.rs:1174-1182 | a family's row is unrevoked iff nothing has ended the family |
| `CognitoTheorems.OnlyMintedAccepted` | src/aws/cognito/service.rs:1273-1308 | whatever is accepted was minted as a user access token, in a family started before |
| `CognitoTheorems.SubFate` | src/aws/cognito/service.rs:1273-1308 | an accepted token names the returned user iff that user, with that sub, was stored when the token was issued; outside the implicit flow it always does |
| `CognitoExamples.TokenForAnother` | src/aws/cognito/handlers_oidc.rs:391-458 | a run in which a login overtaken by deletion and re-creation of its user mints a token accepted for the new user |
| `CognitoTheorems.RefreshTokenFate` | src/aws/cognito/service.rs:1185-1239 | a refresh token is exchanged iff its own client presents it unexpired, the user exists and is enabled, and since issue there was no revocation, sign-out, client, user or pool deletion; the new token is of the same family |
| `CognitoTheorems.OneRefreshTokenPerFamily` | src/aws/cognito/service.rs:1100-1122 | in every reachable state a family has at most one refresh token |
| `CognitoTheorems.CodeFate` | src/aws/cognito/handlers_oidc.rs:717-782 | at the token endpoint an issued code yields tokens iff the client's code flow is on, client and redirect URI are those of the code, the verifier's digest (S256) or text (plain) is its challenge, if it has one, within 300 seconds, pool and enabled user exist, and nothing consumed it or deleted its user or pool |
| `CognitoTheorems.ChallengeIsNoVerifier` | src/aws/cognito/handlers_oidc.rs:671-679 | under S256 the public challenge, presented as the verifier, yields no tokens, unless it is its own digest |
| `CognitoTheorems.CodeRedeemedOnce` | src/aws/cognito/service.rs:1427-1463 | over any interleaving a code starts at most one token family |
| `CognitoTheorems.ExchangeConsumesCode` | src/aws/cognito/handlers_oidc.rs:717-782 | presenting a stored code at the token endpoint marks it used and changes no other code, and is answered by tokens or invalid_grant, unless it fails; it fails, and changes no code, iff the client's code flow is off or everything else is in order but the pool is gone |
| `CognitoExamples.FlowOffKeepsCode` | src/aws/cognito/handlers_oidc.rs:717-782 | a run whose client's code flow is switched off after the code was issued: refused, the code kept, the pool there |
| `CognitoExamples.PoolGoneKeepsCode` | src/aws/cognito/handlers_oidc.rs:717-782 | a run that reaches an exchange whose pool is gone; with any other redirect URI the same code is consumed |
| `CognitoTheorems.ConsumedCodeIsDead` | src/aws/cognito/service.rs:1427-1463 | a consumed code never yields tokens again |
| `CognitoTheorems.RefusalBurnsCode` | src/aws/cognito/handlers_oidc.rs:717-782 | after an invalid_grant refusal of a stored code no continuation of the run exchanges it |
| `CognitoTheorems.RedemptionMatches` | src/aws/cognito/handlers_oidc.rs:717-782 | a success traces back to an approval at authorize for the same client and redirect URI, at most 300 seconds before, whose challenge, if any, the verifier meets: its digest under S256, its text otherwise |
| `CognitoTheorems.SessionFate` | src/aws/cognito/service.rs:1340-1388 | a hosted-UI session resolves iff within 3600 seconds, user exists, enabled and CONFIRMED now, and no logout, sign-out, disabling, user or pool deletion since |
| `CognitoTheorems.CodeOfLogin` | src/aws/cognito/handlers_oidc.rs:391-458 | in any run, the access token a code yields belongs to the key that logged in, and to the very user who did iff that user was still stored when the code was issued |
| `CognitoTheorems.SessionOfLogin` | src/aws/cognito/service.rs:1340-1380 | likewise the user a session resolves to, iff that user was still stored when the session started |
| `CognitoExamples.CodeForAnother` | src/aws/cognito/handlers_oidc.rs:391-458 | a run in which a login overtaken by deletion and re-creation of its user gives tokens of the new user through the code flow |
| `CognitoTheorems.DeletedUserGrantsEnd` | src/aws/cognito/service.rs:632-648 | every grant committed before its user's deletion is dead ever after |
| `CognitoTheorems.DeletedUserAccessRefused` | src/aws/cognito/service.rs:1273-1308 | access tokens of before the deletion are refused, even with the username created anew |
| `CognitoTheorems.DeletedUserRefreshRefused` | src/aws/cognito/service.rs:1185-1239 | so are refresh tokens |
| `CognitoTheorems.DeletedUserCodeRefused` | src/aws/cognito/service.rs:1427-1463 | so are authorization codes |
| `CognitoTheorems.DeletedUserSessionGone` | src/aws/cognito/service.rs:1359-1380 | so are sessions |
| `CognitoTheorems.DeletedUserChallengeRefused` | src/aws/cognito/service.rs:960-991 | so are challenges |
| `CognitoTheorems.EmailsUnique` | src/aws/cognito/service.rs:659-727 | in every reachable state of a pool with email usernames no two users share an email up to ASCII case |
| `CognitoTheorems.ScopesKept` | src/aws/cognito/handlers_oidc.rs:327-370 | every access and identity token whose origin is a code family, however many refreshes later, has the auth_time and client of the code, and an access token the scopes approved at authorize, within the client's scopes then; the list reads back iff its entries are words |
| `CognitoTheorems.ChallengeOnce` | src/aws/cognito/service.rs:960-991 | a challenge session is consumed at most once |
| `CognitoTheorems.ChallengeFate` | src/aws/cognito/service.rs:943-991 | a challenge can be answered iff its client presents it under its name unexpired, the user exists, and nothing consumed it or deleted user or pool |
| `CognitoTheorems.ConfirmationNeedsNewCode` | src/aws/cognito/service.rs:1467-1505 | between two confirmations of one kind for a user a new code was set |
| `CognitoTheorems.VerificationFate` | src/aws/cognito/service.rs:1467-1505 | the latest code is accepted iff presented (trimmed) in time and not used, nor user or pool deleted, since it was set |
| `CognitoTheorems.RefusedPasswordRetried` | src/aws/cognito/handlers_api.rs:909-960 | after a refusal for the password, the same reset with a conforming one succeeds, and the same challenge response succeeds iff its attributes can be assigned |
| `CognitoTheorems.AssignAllExactly` | src/aws/cognito/service.rs:768-804 | an attribute update is refused iff one attribute is the sub, or an email another user of an email-username pool has |
| `CognitoTheorems.ApprovedExactly` | src/aws/cognito/handlers_oidc.rs:291-388 | an authorize request is approved iff its redirect URI is registered, its flow enabled, its scopes non-empty and the client's, its PKCE parameters sound; what is approved is what was asked, with a PKCE method iff with a challenge |
| `CognitoTheorems.AuthenticatedExactly` | src/aws/cognito/service.rs:913-941 | sign-in iff stored, enabled, right password and confirmed; challenge iff the password must be changed; a hiding client cannot tell a missing user from a wrong password |
| `CognitoSignIns.ClientLetIn` | src/aws/cognito/handlers_oidc.rs:624-668 | a client is let in iff it is stored and presents its secret, if it has one; no table changes |
| `CognitoSignIns.ReadyWasLetIn` | src/aws/cognito/handlers_oidc.rs:624-668 | over every run, a client held ready was let in by an earlier step that presented the secret it had then |
| `CognitoSignIns.AnsweredWasLetIn` | src/aws/cognito/handlers_oidc.rs:696-829 | whatever the token endpoint answers in a run, tokens or revocation, it answers to a client an earlier step let in |
| `CognitoSignIns.SignedInByPassword` | src/aws/cognito/handlers_api.rs:838-907 | by API, tokens go iff the client may use the flow and the user is stored, enabled, confirmed and has the password: access, identity and refresh token of a new family, each living as long as the client says; a user who must choose a password gets a challenge |
| `CognitoSignIns.ChallengeResponded` | src/aws/cognito/handlers_api.rs:909-960 | answered iff client, challenge, password and attributes are in order; the user then has the new password and attributes, the challenge is used up, and tokens go as for a sign-in |
| `CognitoSignIns.RefreshedAtEndpoint` | src/aws/cognito/handlers_oidc.rs:783-792 | tokens go iff the token is the client's own, unexpired and unrevoked with its family, pool and enabled user there; with the scopes and sign-in time on record, in the same family, no new refresh token |
| `CognitoSignIns.RefreshedByApi` | src/aws/cognito/handlers_api.rs:838-907 | likewise by API, iff the client may use the flow |
| `CognitoSignIns.CodeExchanged` | src/aws/cognito/handlers_oidc.rs:717-782 | tokens go iff the code is redeemable by this client and its pool and enabled user are there: what was approved, an identity token iff `openid` was, a refresh token of a new family, all with the client's lifetimes; the code is marked |
| `CognitoSignIns.CredentialsGranted` | src/aws/cognito/handlers_oidc.rs:793-826 | a client gets a token for itself iff it has a secret, the flow is on, and every scope asked for, or any at all if none is, is its own with a slash; the token carries those |
| `CognitoSignIns.AuthorizeRequested` | src/aws/cognito/handlers_oidc.rs:291-388 | an authorize request goes on iff approvable, and is held as asked |
| `CognitoSignIns.PasswordPresented` | src/aws/cognito/handlers_oidc.rs:541-601 | at the hosted UI the same users get on, on the pool of the client; one who must choose a password gets a challenge |
| `CognitoSignIns.NewPasswordChosen` | src/aws/cognito/handlers_oidc.rs:541-601 | a challenge answered stores the password and goes on as its user |
| `CognitoSignIns.SessionResumed` | src/aws/cognito/handlers_oidc.rs:516-539 | a session of this pool stands for a password iff unexpired and its user there, enabled and confirmed |
| `CognitoSignIns.SessionOpened` | src/aws/cognito/handlers_oidc.rs:603-609 | a login stores a session of 3600 seconds |
| `CognitoSignIns.LoginCompleted` | src/aws/cognito/handlers_oidc.rs:391-458 | a login ends in a code for 300 seconds with what was approved, or in the implicit flow in tokens without a refresh token |
| `CognitoSignIns.LoginWasShown` | src/aws/cognito/handlers_oidc.rs:516-622 | over every run, a login past its password got there by an earlier request that showed who its user is: the password, a challenge or a session |
| `CognitoEndings.StepEnds` | src/aws/cognito/service.rs:1243-1388 | a step ends a grant, whoever holds it, iff its request is one that ends it and is answered |
| `CognitoEndings.LifeByRequests` | src/aws/cognito/service.rs:1243-1388 | over every run a grant usable at one point is usable later iff no request answered in between ends it |
| `CognitoEndings.EndedForGood` | src/aws/cognito/service.rs:1243-1388 | once a request that ends a grant is answered, the grant is refused wherever it is presented, however the run goes on |
| `CognitoEndings.RevokedForGood` | src/aws/cognito/service.rs:1243-1269 | after an answered revocation of a stored refresh token, no request ever gets anything for it, and no access token of its family is accepted |
| `CognitoRequests.TokenRevoked` | src/aws/cognito/handlers_api.rs:222-237 | answered iff the client is there with its secret and the token is unknown or its own; then token and family are revoked and nothing else changes |
| `CognitoRequests.RevokedAtEndpoint` | src/aws/cognito/handlers_oidc.rs:872-893 | likewise for an authenticated client at the token endpoint |
| `CognitoRequests.UserSignedOut` | src/aws/cognito/handlers_api.rs:151-153 | answered iff the user is there; revokes its families and refresh tokens, ends its sessions, and nothing else |
| `CognitoRequests.BearerSignedOut` | src/aws/cognito/handlers_api.rs:196-205 | likewise by access token, iff it is accepted and has the self-service scope |
| `CognitoRequests.PasswordChanged` | src/aws/cognito/handlers_api.rs:206-221 | answered iff the token is accepted, the old password right and the new one conforms |
| `CognitoRequests.LoggedOut` | src/aws/cognito/service.rs:1382-1388 | ends that session and nothing else |
| `CognitoRequests.EnabledSet` | src/aws/cognito/handlers_api.rs:125-138 | answered iff the user is there; sets the flag, and ends its sessions when disabling |
| `CognitoRequests.UserDeletedWhole` | src/aws/cognito/service.rs:632-648 | answered iff the user is there; takes it and exactly the rows it owns |
| `CognitoRequests.PoolDeletedWhole` | src/aws/cognito/service.rs:294-319 | answered iff the pool is there and not protected; takes it, its clients, its users and exactly the rows they own |
| `CognitoRequests.ClientDeletedWhole` | src/aws/cognito/service.rs:486-497 | answered iff the client is there in this pool; takes it and revokes its refresh tokens, nothing else |
| `CognitoRequests.ClientUpdated` | src/aws/cognito/handlers_api.rs:528-546 | answered iff the client is there in this pool; keeps its secret and pool |
| `CognitoRequests.UserCreated` | src/aws/cognito/handlers_api.rs:616-684 | answered iff the password conforms, the login fits and is free, the email is not taken, and an invitation has an email; stores that user, who must change the password |
| `CognitoRequests.SignedUp` | src/aws/cognito/handlers_api.rs:743-774 | likewise for a self-service sign-up where the pool allows it; the user is unconfirmed and has a code for a day |
| `CognitoRequests.NewUserIsOne` | src/aws/cognito/service.rs:673-765 | what is said of a new user pins it: name, sub, password, status and every attribute |
| `CognitoRequests.PasswordSet` | src/aws/cognito/service.rs:807-823 | answered iff the user is there and the password conforms; CONFIRMED iff permanent |
| `CognitoRequests.AttributesUpdated` | src/aws/cognito/service.rs:768-804 | answered iff no attribute is the sub or a taken email; each attribute is then the one given last, a changed email or phone number unverified unless said otherwise, all others as before |
| `CognitoRequests.UpdatedIsOne` | src/aws/cognito/service.rs:768-804 | what is said of an updated user pins it |
| `CognitoRequests.AttributesDeleted` | src/aws/cognito/handlers_api.rs:161-176 | answered iff the user is there and the sub is not named; takes exactly the attributes named |
| `CognitoRequests.UserConfirmed` | src/aws/cognito/handlers_api.rs:376-389 | answered iff the user is there and UNCONFIRMED; it is then CONFIRMED, its email verified where the pool says so |
| `CognitoRequests.SignUpConfirmed` | src/aws/cognito/handlers_api.rs:239-252 | likewise with the code, iff it is the one on record, trimmed and in time; the code is used up |
| `CognitoRequests.CodeSent` | src/aws/cognito/handlers_api.rs:776-803 | answered iff the user is there, enabled and fit for such a code, which then replaces the old one for a day; or the client hides users, and nothing is written for a missing one |
| `CognitoRequests.PasswordReset` | src/aws/cognito/handlers_api.rs:255-269 | answered iff the code is right and the password conforms; password stored, user CONFIRMED, email verified, code used up |
| `CognitoRequests.ResetByAdmin` | src/aws/cognito/handlers_api.rs:720-741 | answered iff the user is there and enabled; it must choose anew, unless unconfirmed, and has a code |
| `CognitoProgram.Serve` | src/aws/cognito/service.rs:51-70 | over every run the program's tables, signed tokens, requests in progress and answers are those of the state machine, of which the laws of every request and of whole runs speak |
| `CognitoProgram.Server.Handle` | src/aws/cognito/handlers_api.rs:92-275 | one command is one step of the state machine, answer included |
| `CognitoProgram.Server.Settle` | src/aws/cognito/service.rs:51-70 | a successful transaction stands, a failed one leaves tables and signatures as they were |
| `CognitoProgram.Server.Accepts` | src/aws/cognito/service.rs:1273-1308 | in every reached state the program accepts a token iff it was minted, is unexpired, pool and enabled user exist and nothing since ended its family |
| `CognitoProgram.Exchange` | src/aws/cognito/handlers_oidc.rs:717-782 | the exchange: refusals are results, the missing pool a failure, tokens signed accounted for; when it gives tokens is `CodeExchanged` |
| `CognitoProgram.AllAllowed` | src/aws/cognito/handlers_oidc.rs:365-371 | the scan accepts a list iff every scope is the client's |
| `CognitoHandlers.TakeAnswer` | src/aws/cognito/handlers_oidc.rs:541-601 | challenge taken and password set, or refused |
| `CognitoHandlers.Respond` | src/aws/cognito/handlers_api.rs:909-960 | challenge, password, attributes and tokens in one transaction |
| `CognitoHandlers.FinishSignUp` | src/aws/cognito/handlers_api.rs:239-252 | code checked, user confirmed |
| `CognitoHandlers.FinishReset` | src/aws/cognito/handlers_api.rs:255-269 | code checked, password set, email marked verified |
| `CognitoHandlers.SetEnabled` | src/aws/cognito/handlers_api.rs:125-138 | disabling ends the user's sessions, enabling brings none back |
| `CognitoHandlers.ChangePool` | src/aws/cognito/handlers_api.rs:467-487 | saves the settings but never the attributes users sign in with |
| `CognitoHandlers.Register` | src/aws/cognito/handlers_api.rs:743-774 | the user and its confirmation code together |
| `CognitoStore.Store.DeletePool` | src/aws/cognito/service.rs:294-319 | deletes the rows of the pool from all nine tables, or fails for a missing or protected pool |
| `CognitoStore.Store.DeleteClient` | src/aws/cognito/service.rs:486-497 | deletes the client and revokes its refresh tokens, nothing else |
| `CognitoStore.Store.SaveUser` | src/aws/cognito/service.rs:611-630 | overwrites one user's row; writes nothing if there is none |
| `CognitoStore.Store.DeleteUser` | src/aws/cognito/service.rs:632-648 | deletes the user and all rows owned by it |
| `CognitoStore.Store.CreateUser` | src/aws/cognito/service.rs:673-765 | inserts the user, or refuses the login, the taken name or the taken email |
| `CognitoStore.Store.UpdateAttributes` | src/aws/cognito/service.rs:768-804 | the loop saves all updates, or none when one is refused |
| `CognitoStore.Store.SetPassword` | src/aws/cognito/service.rs:807-823 | stores a conforming password and the matching status |
| `CognitoStore.Store.CreateChallenge` | src/aws/cognito/service.rs:943-957 | inserts the challenge row with its expiry |
| `CognitoStore.Store.TakeChallenge` | src/aws/cognito/service.rs:960-991 | checks and deletes the challenge and finds its user |
| `CognitoStore.Store.Sign` | src/aws/cognito/service.rs:1049-1098 | signs exactly the access token and the requested identity token |
| `CognitoStore.Store.IssueTokens` | src/aws/cognito/service.rs:1025-1129 | starts or continues a family, inserts at most one refresh row, signs the tokens |
| `CognitoStore.Store.IssueApiTokens` | src/aws/cognito/service.rs:1132-1154 | issues a new family with the self-service scope |
| `CognitoStore.Store.Refresh` | src/aws/cognito/service.rs:1185-1239 | checks in the source's order, then issues in the same family without a new refresh token |
| `CognitoStore.Store.RevokeRefresh` | src/aws/cognito/service.rs:1243-1269 | revokes token and family for its own client only; what that does to every later request is `RevokedForGood` |
| `CognitoStore.Store.ValidateAccess` | src/aws/cognito/service.rs:1273-1308 | accepts or names the reason, in the source's order |
| `CognitoStore.Store.GlobalSignOut` | src/aws/cognito/service.rs:1318-1334 | revokes families and refresh tokens, deletes sessions, stamps the user; codes and challenges stay |
| `CognitoStore.Store.CreateSession` | src/aws/cognito/service.rs:1340-1356 | inserts a session of 3600 seconds |
| `CognitoStore.Store.SessionUser` | src/aws/cognito/service.rs:1359-1380 | resolves a session or refuses |
| `CognitoStore.Store.DeleteSession` | src/aws/cognito/service.rs:1382-1388 | deletes one session |
| `CognitoStore.Store.CreateCode` | src/aws/cognito/service.rs:1403-1424 | inserts a code with what was approved |
| `CognitoStore.Store.TakeCode` | src/aws/cognito/service.rs:1427-1463 | marks the code used even when it refuses it |
| `CognitoStore.Store.SetCode` | src/aws/cognito/service.rs:1467-1476 | replaces the user's verification code of a kind |
| `CognitoStore.Store.CheckCode` | src/aws/cognito/service.rs:1478-1505 | consumes a matching unexpired code |
| `Text.JoinSurvivesSplit` | src/aws/cognito/service.rs:1049-1063 | joining with spaces and splitting gives the list back iff all entries are words |
| `Text.SpacedEntryLost` | src/aws/cognito/service.rs:1049-1063 | one list that does not survive |
| `Text.WordsExactly` | src/aws/cognito/service.rs:1049-1063 | white space parts a text into the words of its two sides, and a word is itself |
| `Text.TrimExactly` | src/aws/cognito/service.rs:1478-1505 | trimming takes exactly the white space at both ends |
| `SmtpTheorems.TransactionsDelivered` | src/mailbox/smtp.rs:53-126 | for every list of transactions, with verbs in any letter case, addresses in or without brackets, and NOOP, VRFY, greetings and unknown commands anywhere between, the deliveries are exactly those senders, recipients and messages in order, each item gets its reply, and after QUIT nothing more is read |
| `SmtpTheorems.ScriptUnderstood` | src/mailbox/smtp.rs:53-126 | any sequence of sayable items in any letter case is understood one event per item, with the items' replies in order, so no DATA byte is read as a command; the rest of the stream follows |
| `SmtpTheorems.DeliveriesAccounted` | src/mailbox/smtp.rs:59-123 | for every byte stream each delivery has the latest sender and the non-empty recipients since the last MAIL FROM, RSET or completed DATA |
| `SmtpTheorems.DataRoundTrip` | src/mailbox/smtp.rs:162-196 | a stuffed message and terminator are read back, stream left just behind, iff the message ends in LF (or is empty) and fits the cap |
| `SmtpTheorems.UnendedMessageLost` | src/mailbox/smtp.rs:162-196 | one message that is not read back |
| `SmtpTheorems.DataConsumed` | src/mailbox/smtp.rs:162-196 | a message of any size is consumed to just behind its terminator; it is lost iff over the cap |
| `SmtpTheorems.PayloadSplits` | src/mailbox/smtp.rs:162-196 | for every stream the reader consumes exactly the payload lines, each ended by its only LF except perhaps the last at the end of the stream, and one terminator line, or to the end |
| `SmtpStandard.StandardAgrees` | src/mailbox/smtp.rs:162-196 | for every byte stream the result is that of RFC 5321's CR LF lines iff the server stops at `.` CR LF where a CR LF line begins, and both delete the same dots (no CR LF line begins with a lone dot, no two dots follow a bare LF) or the message is too big either way |
| `SmtpStandard.CrLfAgrees` | src/mailbox/smtp.rs:162-196 | on a stream without bare LF: iff it stops at `.` CR LF, and no payload line begins with a lone dot or the message is too big either way |
| `SmtpStandard.StuffedAgrees` | src/mailbox/smtp.rs:162-196 | on a stuffed message of whole lines: iff it is empty or ends in CR LF, and no line behind a bare LF begins with a dot or it is too big |
| `SmtpStandard.StuffedCrLfAgrees` | src/mailbox/smtp.rs:162-196 | on every stuffed message whose lines end in CR LF they agree |
| `SmtpStandard.LoneDotKept` | src/mailbox/smtp.rs:176-181 | on the line `.a` CR LF the server keeps the dot |
| `SmtpStandard.BareLfEnds` | src/mailbox/smtp.rs:162-196 | at a dot between bare LFs the server ends the message and leaves the rest as commands; the standard reads one line on |
| `SmtpStandard.CutOffDelivered` | src/mailbox/smtp.rs:162-196 | a message cut off by the end of the stream is handed on; to the standard there is none |
| `SmtpTheorems.AngleOf` | src/mailbox/smtp.rs:200-209 | any bracketed address, brackets and colons inside or text behind included, is extracted whole |
| `SmtpTheorems.PathRead` | src/mailbox/smtp.rs:200-209 | the address read from every form of path: in brackets, trimmed text behind the colon, or none |
| `SmtpTheorems.PathsCover` | src/mailbox/smtp.rs:200-209 | whatever follows a verb is one of those forms |
| `SmtpTheorems.QuitEnds` | src/mailbox/smtp.rs:114-116 | QUIT in any letter case is answered 221 and ends the session there |
| `SmtpTheorems.LineTextOf` | src/mailbox/smtp.rs:146-157 | a command within the line cap reaches the parser as written |
| `Utf8.DecodeEncode` | src/mailbox/smtp.rs:146-157 | lossy decoding gives encoded text back whatever bytes follow |
| `Utf8.DecodeExactly` | src/mailbox/smtp.rs:146-157 | whatever the bytes, the text is the one of the Unicode Standard (section 3.9): each character whose encoding stands there, else one replacement for the longest start of one |
| `SmtpServer.Reader.ReadUntilLf` | src/mailbox/smtp.rs:146-157 | takes through the first LF, or to the end |
| `SmtpServer.ReadMessage` | src/mailbox/smtp.rs:162-196 | the loop returns the un-stuffed payload, nothing iff its total exceeds the cap, at the same stream position |
| `SmtpServer.HandleSession` | src/mailbox/smtp.rs:53-126 | the command loop's deliveries, replies and final position are those of the stream |
| `QueryTheorems.QueryRoundTrip` | src/proto.rs:124-195 | a flattened value decodes to itself, for every parameter order and any unrelated parameters, iff it is the empty object or expressible |
| `QueryTheorems.NumericKeyLost` | src/proto.rs:151-180 | an object with the key `1` comes back as an array |
| `QueryTheorems.FlattenDecode` | src/proto.rs:124-195 | every expressible value comes back from its own flattened form |
| `QueryOrder.OrderIrrelevant` | src/proto.rs:124-195 | every visiting order gives the same decoded value iff each path that extends another does so by `member`/`entry` only and with equal text, and the paths extending one path lie on one chain |
| `QueryOrder.OrderMatters` | src/proto.rs:124-195 | the parameters `a` and `a.b` decode to two given different values in their two orders, whatever their texts |
| `QueryOrder.OrderHidden` | src/proto.rs:124-195 | the parameters `a` and `a.member` with equal text decode the same in both orders |
| `QueryTheorems.InsertEffect` | src/proto.rs:132-149 | one insertion sets its path, removes paths that extend it or it extends, keeps all others |
| `QueryTheorems.ConvertTrie` | src/proto.rs:151-180 | converting a value's trie gives the value, arrays in number order |
| `QueryTheorems.ConvertEncodable` | src/proto.rs:151-180 | whatever is decoded could have been flattened |
| `QueryTheorems.SplitDotted` | src/proto.rs:182-194 | splitting a dotted path gives its parts |
| `Query.QueryToJson` | src/proto.rs:124-195 | the loop, over an order nobody controls, folds and converts every parameter once |
| `XmlTheorems.DocumentRebuilt` | src/xml.rs:53-116 | the events of every document, with anything but elements around it, give its tree: local names, attributes of tagged elements, children in order, text run together |
| `XmlTheorems.AttributesKept` | src/xml.rs:81-90 | the tree has every attribute of every tag, a value with malformed escapes read as empty, iff no empty-element tag has any |
| `XmlTheorems.AttributeLost` | src/xml.rs:81-90 | the loss at one input |
| `XmlTheorems.DocRuns` | src/xml.rs:53-116 | in any context an element's events leave the open path as it was and hand on its tree |
| `XmlTheorems.Verdict` | src/xml.rs:53-116 | for every clean event stream: unbalanced iff more ends than starts at some point, accepted iff otherwise some outermost element completed |
| `XmlTheorems.CutShort` | src/xml.rs:53-116 | a document cut off at any earlier event is refused |
| `Xml.LocalName` | src/xml.rs:44-50 | the longest colon-free end of a name: what follows its last colon |
| `Xml.Parse` | src/xml.rs:53-116 | the stack loop computes the outcome of the event stream |
| `EventStreamTheorems.BodyDecodes` | src/aws/bedrock/streaming.rs:145-162 | decoded with both lengths and checksums, a body is the first min(chunks, fail_after) chunk frames, then an error frame iff chunks were held back, else a stop frame |
| `EventStreamTheorems.FrameRoundTrip` | src/aws/bedrock/streaming.rs:32-58 | a frame is read back, stream left just behind, iff its lengths fit their fields |
| `EventStreamTheorems.HeadersBack` | src/aws/bedrock/streaming.rs:18-29 | headers are read back iff names are under 256 and values under 65536 bytes |
| `EventStreamTheorems.ServiceFits` | src/aws/bedrock/streaming.rs:85-139 | with the service's headers a body fits iff each payload plus 91 bytes (159 for errors) is under 2^32 |
| `EventStreamTheorems.TextRecovered` | src/aws/bedrock/streaming.rs:65-79 | the decoded chunks of an unbroken body join to the text (char, whole), to it iff aligned (fixed), to its words (word) |
| `EventStreamTheorems.ChunksExactly` | src/aws/bedrock/streaming.rs:65-79 | chunk i of every mode: word i and a space, character i, the decoded bytes of block i (at least one byte a block), or the text; and there are no others |
| `EventStreamTheorems.BlocksJoin` | src/aws/bedrock/streaming.rs:65-79 | fixed-mode chunks join to the text iff every block ends between characters |
| `EventStreamTheorems.CharacterCut` | src/aws/bedrock/streaming.rs:65-79 | a two-byte character in blocks of one byte is not kept |
| `EventStreamTheorems.AsciiAligned` | src/aws/bedrock/streaming.rs:65-79 | texts of one-byte characters always do |
| `EventStreamTheorems.CharactersJoin` | src/aws/bedrock/streaming.rs:65-79 | character-mode chunks join to the text |
| `EventStreamTheorems.WordsJoin` | src/aws/bedrock/streaming.rs:65-79 | word-mode chunks keep the word sequence |
| `EventStream.BuildStreamingBody` | src/aws/bedrock/streaming.rs:145-162 | the loop with its early return writes exactly those frames |
| `BedrockTheorems.Serve` | src/aws/bedrock/scenario_engine.rs:52-186 | over any interleaving of calls and resets, each response is decided by the call's position n among its model's calls since the model's last reset: the first entry whose positive period divides n injects its error; else the first rule matching the prompt that has an error or a response decides, error first; else entry (n-1) mod len or min(n-1, len-1) of a list; else the mode: the configured payload or null, a value that conforms to the schema, or a text; responses give error, else payload, else text; streaming and latency are the model's |
| `BedrockTheorems.CountIsSince` | src/aws/bedrock/state.rs:25-47 | a counter is the number of the model's calls that no reset follows |
| `BedrockTheorems.OthersDoNotCount` | src/aws/bedrock/state.rs:25-47 | other models' calls and resets do not move it |
| `BedrockTheorems.InjectionFrequency` | src/aws/bedrock/scenario_engine.rs:60-74 | with one entry of period e, N calls see exactly floor(N/e) injected errors |
| `BedrockTheorems.CycleFair` | src/aws/bedrock/scenario_engine.rs:110-130 | any len consecutive positions of a cycle serve every entry exactly once |
| `BedrockTheorems.CycleCount` | src/aws/bedrock/scenario_engine.rs:110-130 | of N positions a cycle serves entry k exactly floor((N + len - 1 - k) / len) times |
| `BedrockTheorems.CapitalsNeverMatch` | src/aws/bedrock/scenario_engine.rs:76-108 | for every lower-casing, a rule decides some prompt iff its text is all lower case and it has an error or a response |
| `BedrockTheorems.CaseIgnoredExactly` | src/aws/bedrock/scenario_engine.rs:76-108 | a rule ignores letter case on every prompt iff its text is all lower case, or it has no text or nothing to give |
| `BedrockTheorems.CapitalMissed` | src/aws/bedrock/scenario_engine.rs:76-108 | a rule for `Hi` does not decide the prompt `Hi` |
| `Bedrock.Scan` | src/aws/bedrock/scenario_engine.rs:60-186 | the scans with early return choose what the priorities say; what each choice answers is stated in `Serve` |
| `Bedrock.State.Resolve` | src/aws/bedrock/scenario_engine.rs:52-186 | counts the call and resolves it from the new count alone |
| `Bedrock.State.Increment` | src/aws/bedrock/state.rs:25-30 | adds one to the model's counter and returns it |
| `Bedrock.State.Reset` | src/aws/bedrock/state.rs:39-47 | forgets one counter or all |
| `Generator.GenerateConforms` | src/aws/bedrock/generator.rs:92-165 | for every nested schema the value conforms at every level: enum members, exact keys, 1 to 3 items, scalar types and value lists |
| `Generator.GenerateFromSchema` | src/aws/bedrock/generator.rs:92-165 | terminates, and its value depends only on schema, model, count and path |
| `Generator.ComputeSeed` | src/aws/bedrock/generator.rs:54-62 | the loop computes the 64-bit FNV-1a hash |
| `Generator.HashOfA` | src/aws/bedrock/generator.rs:54-62 | the published hash of one letter |
| `Generator.Pick` | src/aws/bedrock/generator.rs:65-67 | returns an element of the list |
| `Generator.GenerateTextWords` | src/aws/bedrock/generator.rs:74-89 | the text is the words the seeds draw from the list, joined by single spaces, as many as the seed says within the configured bounds |

## Left out

- The look-up of a user by login, sub or alias (`find_user`): the username it found, or that it found someone, is an input.
- The password policy and password hashing: the policy's verdict is an input, passwords compare as text.
- The userInfo endpoint, and the refusal of a JWT at `/oauth2/revoke` by its two dots: easy members.
- Signatures, random generation, SHA-256, base64, CRC-32 and JSON text: an unforgeable set of minted tokens, identifiers from a counter, a digest that comes with the verifier, and function parameters.
- Seeding pools and clients with chosen ids, and reuse of a client id across pools: generated ids are never reused.
- SQLite: tables are maps, a transaction is one atomic step with one clock reading.
- AdminCreateUser RESEND, pool domains, resource servers, listing and paging, and identity-token attribute claims: they would add easy members only.
- The control-plane reset that empties the Cognito tables (src/control.rs:28): a run starts from empty tables instead.
- HTML pages, cookies, discovery documents, mail building, telemetry, routing and configuration loading.
- Sockets, the accept loop, and what becomes of a delivered message: a delivery is an entry in a list, and the reply 451 for one that could not be stored is not modelled.
- Query.Insert: works on map values, not in place.
- QueryTheorems.QueryRoundTrip: arrays of 2^64 items or more are excluded, as no index can name them.
- XML tokenizing, unescaping and decoding: the tokenizer's decoded events are the input, with absent text for malformed escapes and without malformed attributes.
- XML navigation helpers (`child`, `path`) and JSON-to-XML output: easy members.
- Bedrock.State.Increment: counters are unbounded; the 64-bit overflow after 2^64 calls is not modelled.
- Unicode lower-casing of prompts: the lower-cased prompt is an input.
- Text generation with `max_words` under `min_words`, where the source's unsigned subtraction overflows, is excluded by a precondition (`Sensible`).
- Latency and chunk delays: no effect on results.
- S3, SQS, SNS, SES, KMS, DynamoDB, Azure and GCP service logic.
