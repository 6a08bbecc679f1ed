# ZFW, modelled and proved

ZFW turns an ordered rule list into iptables chains and runs them under a
dead-man timer. This project models its rule compiler, its two script back ends,
the engine script, the threat classifier, the request limiter and the small
stateful pieces around them, and proves what they keep. `dafny verify
dfyconfig.toml` checks all of it.

## How the pieces fit

| file | module | what it holds |
|---|---|---|
| `rules.dfy`, `acceptance.dfy` | `Rules`, `Acceptance` | the rule model and its validator; what it takes, field by field |
| `text.dfy`, `textfacts.dfy`, `ordering.dfy`, `seqs.dfy` | `Text`, `TextFacts`, `Ordering`, `Seqs` | Go's string functions and what they do to characters, the stable sort and "the rule that wins", sequence facts |
| `netfilter.dfy` | `Netfilter` | packets, match clauses, lines, one chain's evaluation with its `-m recent` stamps |
| `rulelines.dfy`, `clauses.dfy`, `chains.dfy` | `RuleLines`, `Clauses`, `Chains` | one rule to its lines, what holds of all their clauses, six chains |
| `meaning.dfy` | `Meaning` | compilation preserves meaning |
| `verdicts.dfy`, `ratelimit.dfy`, `logs.dfy`, `shape.dfy` | `Verdicts`, `RateLimiting`, `Logs`, `Shape` | what follows: zones, IPv6, outbound, rate limits over runs, what is logged, lines iptables accepts |
| `tables.dfy`, `scripts.dfy`, `restore.dfy`, `backends.dfy` | `Tables`, `Scripts`, `RestoreBackEnd`, `BackEnds` | filter tables, an interpreter for iptables commands, the two back ends, their agreement |
| `sets.dfy` | `Sets` | country sets, loaded before any line that names them |
| `upkeep.dfy`, `revert.dfy`, `guards.dfy`, `engine.dfy` | `Upkeep`, `Reverting`, `Guards`, `Engine` | invariants of whole runs, what revert restores, the tests IPv6 commands sit behind, the dead man |
| `traffic.dfy`, `endtoend.dfy`, `outbound.dfy` | `Traffic`, `WholeHost`, `OutboundChains` | packets through the live tables and the jumps between them; traffic before, during and after |
| `events.dfy`, `limiter.dfy`, `audit.dfy` | `Events`, `Limiter`, `Audit` | the classifier and its buffer, the token buckets, the audit timeline |
| `files.dfy`, `migration.dfy`, `config.dfy`, `tiers.dfy`, `seeding.dfy` | `Files`, `Migration`, `ConfigFile`, `Tiers`, `Seeding` | rules.json saved and loaded, concurrent loads, allowlist.conf, the migration from it, first start |

The compiler is proved in two steps. The methods build lines in the nested loops
of the source and equal a specification made of alternatives, `Cross` products
of match fragments (`RuleLines.Alts`). `Meaning` shows that a product of
alternatives matches exactly when every factor does, and from there that a
chain's evaluation is the outcome of the one rule that wins. The world outside
(CIDR membership, country sets, time windows) is a record of functions that no
proof looks into, and every theorem holds for all of them.

The back ends are proved the same way: each writes its script in its own loops,
both scripts run on one interpreter, and the tables each run ends in are given
exactly, for every combination of tools (`BackEnds.InstalledBash`, `Restored`).
The engine runs the revert script on that same interpreter; nothing about its
effect is assumed. `RunScript` takes the index of the command the kernel
refuses, so a theorem about an apply covers failure at every point.

## Where the code and its documentation differ

The model follows the code. Each of these is a theorem below.

- A rate limit of `Conn` lets `Conn - 1` connections through, because the stamp
  of the packet itself is set before the window is counted; a limit of one
  refuses every connection (`RateLimiting.PromiseExact`, `LimitOfOneRefusesAll`).
- `V6Drop` lines stand behind the mirrored rules and lose to an earlier allow,
  although the comment says they win (`Verdicts.V6DropExact`,
  `AllowBeatsV6Drop`).
- An apply without `--safe` leaves an armed timer armed, which later takes the
  new rules down (`Engine.OutlastsClockExact`, `StaleTimerTakesDown`).
- An outbound chain survives an apply whose rule set no longer needs it
  (`BackEnds.OutboundSurvives`).
- On a host without DOCKER-USER the restore script creates it and the bash
  script does not (`BackEnds.BackEndsAgree`); with ip6tables alone it fails at
  the first IPv6 chain that is not there yet (`BackEnds.RestoreInstalls`); with
  ip6tables-restore alone it builds an IPv6 chain that a revert cannot remove
  (`Engine.CleanAfterRevertExact`).
- The set of published ports is of TCP ports, yet zone auto splits a rule's
  ports by it for UDP too: a UDP packet to a port published over TCP meets
  neither chain's line of an auto list rule (`Verdicts.SplitExact`,
  `UdpMissesAutoList`).
- The validator takes a host address or LAN written as IPv4-mapped IPv6, which
  the IPv4 DOCKER-USER chain cannot hold (`Shape.CompiledLinesExact`,
  `MappedHostRefused`).
- The legacy migration drops a port written with a sign, which the configuration
  validator allows; without a LAN the old drop list refuses nothing; with one,
  every IPv6 packet that no bypass line takes is dropped (`Tiers.NumberExact`,
  `SignedPortLost`, `DropListNeedsLan`, `MigrationClosesIPv6`).
- A save validates nothing: a host that publishes more than 128 kept ports gets
  its migrated set saved, and every recompile then refuses the file
  (`Seeding.SeededExact`, `TooManyPublished`).
- The first apply, or a revert, empties DOCKER-USER and leaves it at one RETURN:
  rules the host's owner kept there are lost for good, a ban among them, and
  traffic fares as before only where that chain was not in use
  (`WholeHost.TrafficRestoredExact`, `BanLost`).
- `History.Update` can report a change when no timeline differs, precisely when
  a batch gives one finding two different statuses (`Audit.DirtyExact`). The
  function allows it; the program's own findings have distinct ids
  (internal/audit/audit.go:50-69), so it never happens there.
- A rule without an id is logged and rate-limited like any other, under the prefix
  "ZFW-RULE- " and in the bucket "z", although the validator's comment says it
  gets no such lines (`Logs.LogsExact`, `RateLimiting.LimitExact`).
- A time of day may be written with a sign, "+5:-0", and a note is capped at 256
  bytes where its comment says characters (`Acceptance.TimeTextsExact`,
  `TextTaken`).
- The event buffer shows through for limits above 25001
  (`Events.BoundInvisibleExact`). Its only caller asks for at most 5000
  (internal/handlers/handlers.go:650-655).

## Model

| member | source | states |
|---|---|---|
| Meaning.ChainMeaning | internal/compiler/compiler.go:28-41 | main theorem, for all six chains, every packet and every recent table: a bypass verdict stands above the rules, else the winner (enabled, matching, least Order, earliest place) alone decides, else the default policy; fan-out over countries, protocols and 15-port chunks never shows |
| Meaning.AltsMeaning | internal/compiler/compiler.go:607-640 | some alternative of a rule on a chain matches exactly when the rule as written applies: direction, zone split, family, source, protocol and port |
| Meaning.AnyHoldCross | internal/compiler/compiler.go:613-638 | nested loops over fragments are a conjunction: a product of alternatives matches iff each factor does |
| Meaning.ChunksMeaning | internal/compiler/compiler.go:811-830 | the multiport chunks match exactly the ports of the whole list |
| Meaning.EvalWrapAll | internal/compiler/compiler.go:464-488 | the wrapped lines of all alternatives act as one rule: the bucket is stamped once, LOG is transparent, the rest of the chain runs only when no alternative matched |
| Meaning.EvalSection | internal/compiler/compiler.go:126-133 | the lines of a sorted rule list evaluate to the outcome of its first applying rule |
| Ordering.SortIsStable | internal/compiler/compiler.go:33-36 | rules of one Order keep their relative places |
| Ordering.SortElements | internal/compiler/compiler.go:33-36 | the sort is a permutation in Order |
| Ordering.FirstOfSorted | internal/compiler/compiler.go:33-36 | the first match of the sorted list is the rule that wins in the list as written |
| Rules.Validate | internal/rules/rules.go:355-404 | one pass with a set of seen ids accepts exactly the valid rule sets |
| Acceptance.OneMoreTaken | internal/rules/rules.go:355-404 | a valid set takes a further rule iff it has fewer than 256, the rule is valid on its own and no other has its id; the empty set is valid |
| Acceptance.HeaderTaken | internal/rules/rules.go:355-386 | the fields above the rules, with their numbers |
| Acceptance.IdTaken | internal/rules/rules.go:438-457 | a rule's id is taken iff it has at most 16 letters, figures, dashes and underscores and is no other rule's |
| Acceptance.BindingTaken | internal/rules/rules.go:409-425 | a container binding is taken iff it has at most 64 such characters or dots |
| Acceptance.TextTaken | internal/rules/rules.go:496-504 | name and note are taken iff the name is not empty and the note's UTF-8 form has at most 256 bytes |
| Acceptance.PortsTaken | internal/rules/rules.go:567-596 | a port list is taken iff it has one to 128 ports from 1 to 65535, a range iff it is ordered within them |
| Acceptance.LimitTaken | internal/rules/rules.go:609-617 | a rate limit is taken iff 1 to 1000 connections in 1 to 3600 seconds |
| Acceptance.ScheduleTaken | internal/rules/rules.go:627-656 | a schedule of two four-figure times is taken iff both are from 00:00 to 23:59 and at most seven days are named, in any letter case |
| Acceptance.TimeTextsExact | internal/rules/rules.go:649-656 | every text a schedule may hold as a time of day, signs included |
| Acceptance.SourceTaken | internal/rules/rules.go:534-548 | any source is taken, an address or range iff its parser takes it |
| Acceptance.CountriesTaken | internal/rules/rules.go:549-557 | a country list is taken iff it has one to 32 two-letter codes, whatever white space and blank items stand between the commas |
| TextFacts.TrimPadded | internal/firewall/firewall.go:141-149 | trimming takes the white space around a text and nothing else |
| TextFacts.ListReads | internal/rules/rules.go:460-468 | a comma-separated list reads as its items, whatever white space and blank items were typed |
| TextFacts.LowerExact | internal/handlers/handlers.go:259-267 | lowering identifies two texts iff nothing but letter case tells them apart |
| RuleLines.WrapEmit | internal/compiler/compiler.go:464-488 | rate-limit pair, LOG and action lines for one match prefix |
| RuleLines.SourceArgs | internal/compiler/compiler.go:778-794 | one fragment per source or country |
| RuleLines.MultiportArgs | internal/compiler/compiler.go:811-830 | the slicing loop yields the chunk specification |
| RuleLines.PortsForZone | internal/compiler/compiler.go:709-774 | the part of a rule's ports one chain gets, or none |
| RuleLines.HostLines | internal/compiler/compiler.go:607-640 | the nested loops produce the wrapped product of alternatives for ZFW-IN |
| RuleLines.DockerLines | internal/compiler/compiler.go:647-692 | the same for DOCKER-USER, one line per original port |
| RuleLines.HostLines6 | internal/compiler/compiler.go:526-558 | the same for ZFW-IN6 |
| RuleLines.OutboundLines | internal/compiler/compiler.go:368-394 | the same for the IPv4 outbound chains |
| RuleLines.OutboundLines6 | internal/compiler/compiler.go:399-420 | the same for ZFW-OUT6 |
| RuleLines.EmitOutboundPortLines | internal/compiler/compiler.go:425-448 | protocol and port fan-out of an outbound rule |
| Verdicts.CosmeticsInvisible | internal/compiler/compiler.go:464-488 | LOG flags, names, notes and container bindings change no outcome on any chain |
| Verdicts.DisabledInvisible | internal/compiler/compiler.go:33-36 | a rule set compiles to the same chains, line for line, with its disabled rules taken out before the sort |
| Verdicts.AutoPartition | internal/compiler/compiler.go:740-773 | the host and docker lists of an auto rule weave back into the rule's list, nothing lost, doubled or reordered |
| Verdicts.PairIsOnePass | internal/compiler/compiler.go:149-185 | with packets routed by what the host forwards, transport and port, the two chains give the outcome of one first-match pass over the whole list: for every TCP packet, and for any other unless a misrouted auto list rule decides the pass; DOCKER-USER's default is drop exactly for LAN sources under deny |
| Verdicts.SplitExact | internal/compiler/compiler.go:740-773 | pair and single pass have the same deciding rule iff the pass is not decided by an auto list rule whose port is TCP-published while the packet's transport is not forwarded, or the other way round |
| Verdicts.UdpMissesAutoList | internal/compiler/compiler.go:740-773 | the failing family: a UDP packet to a port published over TCP alone is dropped by default though an auto list rule allows it |
| Verdicts.FamiliesApart | internal/compiler/compiler.go:399-420 | for any rules at all, no IPv4 chain carries an IPv6 rule address and no IPv6 chain an IPv4 one or a country set, inbound and outbound |
| Verdicts.MirrorExact | internal/compiler/compiler.go:526-598 | a rule has lines on the IPv6 chain iff it is inbound, its source is any or IPv6, and some port it selects is the host's |
| Verdicts.AllowBeatsV6Drop | internal/compiler/compiler.go:230-243 | the failing input: a port on the list that a rule allows stays open |
| Verdicts.V6DropExact | internal/compiler/compiler.go:230-243 | a port on the V6Drop list is dropped iff no allow rule won the packet first with its sender within the rule's limit |
| Verdicts.OutboundNeverDefaultDenies | internal/compiler/compiler.go:260-351 | an outbound chain drops a packet iff its winning rule denies it or its sender is over that rule's limit |
| Verdicts.AllowedVerdict | internal/compiler/compiler.go:607-640 | an allow rule ends the walk on ZFW-IN and the outbound chains and returns on DOCKER-USER and ZFW-IN6 |
| Verdicts.OwnInterfacesPass | internal/compiler/compiler.go:90-125 | traffic of loopback, the host's bridges, its tunnels and the extra interfaces is let in whatever the rules say, on DOCKER-USER that of the last two |
| Verdicts.OutboundLinesExact | internal/compiler/compiler.go:260-351 | the outbound chains have lines of rules iff some enabled outbound rule is for their zone (and, forwarded, not for an IPv6 peer alone) |
| RateLimiting.OneBucket | internal/compiler/compiler.go:464-488 | an arrival touches at most the bucket of its deciding rule, for its own sender |
| RateLimiting.LimitExact | internal/compiler/compiler.go:464-488 | the exact verdict and the exact stamps of every rule with a limit of at least one connection in at least one second: pass iff fewer than conn - 1 earlier stamps are in the window |
| RateLimiting.Unlimited | internal/compiler/compiler.go:464-488 | a rule without a limit acts and no more: no refusal, no stamp |
| RateLimiting.BucketsApart | internal/compiler/compiler.go:464-488 | two rules share a bucket iff they share an id, and no packet decided by another rule touches a rule's bucket |
| Logs.LogsExact | internal/compiler/compiler.go:464-488 | what a packet leaves in the kernel log, on every chain: nothing if it bypasses the rules, the winner's prefix once if it is to log and its limit lets the packet come to that, else the default's prefix |
| Logs.DefaultDropsAreLogged | internal/compiler/compiler.go:136-145 | no new packet is dropped by default without a log line, but on the V6Drop list, and none is logged twice |
| RateLimiting.PromiseExact | internal/rules/rules.go:104-111 | the documented promise (conn per window) holds for a packet iff its sender does not stand at conn - 1 |
| RateLimiting.LimitOfOneRefusesAll | internal/rules/rules.go:104-111 | a limit of one connection drops every packet its rule decides |
| RateLimiting.WindowBound | internal/rules/rules.go:104-111 | over any run through any mix of chains, fewer than conn packets of one sender pass one rule in any window, all its lines counted together |
| Shape.BindContainerPorts | internal/handlers/handlers.go:222-258 | in place, every rule bound to a known container gets that container's ports (id before name, last entry wins), every other rule is untouched |
| Shape.CollectGeoCodes | internal/handlers/handlers.go:259-267 | exactly the lower-cased codes of all country rules |
| Shape.BindingExact | internal/handlers/handlers.go:222-258 | the ports a bound rule ends with, told by the container list: last with the id, else last with the name, else its own |
| Shape.ChunksReadBack | internal/compiler/compiler.go:811-830 | the chunks concatenate to the input, are as few as possible, and all but the last hold fifteen ports |
| Shape.DockerPrologueExact | internal/compiler/compiler.go:151-167 | DOCKER-USER's fixed lines fit an IPv4 table iff the host address has no colon |
| Shape.CompiledLinesExact | internal/handlers/handlers.go:218-268 | from a valid set with any number of container ports substituted, every line of a chain is well shaped, its port clauses behind their protocol, on its family, with its country sets loaded, iff DOCKER-USER's two addresses have no colon |
| Shape.MappedHostRefused | internal/rules/rules.go:355-404 | the failing input: a valid set with an IPv4-mapped host address whose DOCKER-USER chain is not accepted |
| Tables.RunConcat | internal/compiler/compiler.go:45-67 | a script under set -e is its parts in turn, stopping at the first refused command |
| Scripts.EmitHostChain | internal/compiler/compiler.go:90-146 | writes the commands that rebuild ZFW-IN with its compiled lines, and one hook |
| Scripts.EmitDockerChain | internal/compiler/compiler.go:149-185 | the same for DOCKER-USER, guarded by its presence |
| Scripts.EmitV6Chain | internal/compiler/compiler.go:188-255 | the same for ZFW-IN6, guarded by the tool |
| Scripts.EmitOutboundChains | internal/compiler/compiler.go:260-351 | outbound chains, each written iff an enabled outbound rule wants it |
| Scripts.OutboundZones | internal/compiler/compiler_restore.go:204-217 | true for a zone iff an enabled outbound rule has it or is auto |
| Scripts.Compile | internal/compiler/compiler.go:28-41 | the bash back end's script |
| RestoreBackEnd.ZfwInRules | internal/compiler/compiler_restore.go:225-258 | builds the same ZFW-IN lines as the bash emitter |
| RestoreBackEnd.DockerUserRules | internal/compiler/compiler_restore.go:260-288 | the same DOCKER-USER lines |
| RestoreBackEnd.ZfwIn6Rules | internal/compiler/compiler_restore.go:290-327 | the same ZFW-IN6 lines |
| RestoreBackEnd.ZfwOutRules | internal/compiler/compiler_restore.go:329-386 | the same outbound lines, for each of the three chains |
| RestoreBackEnd.RestoreV4 | internal/compiler/compiler_restore.go:143-169 | the IPv4 document: declared chains, then their lines |
| RestoreBackEnd.RestoreV6 | internal/compiler/compiler_restore.go:174-193 | the IPv6 document |
| RestoreBackEnd.CompileRestoreScript | internal/compiler/compiler_restore.go:70-138 | the restore back end's script |
| BackEnds.BashInstalls | internal/compiler/compiler.go:90-351 | from any tables, with Docker or without and whatever IPv6 tools there are, the bash script goes through and ends in exactly the tables with the compiled chains installed, one jump each, nothing else touched, a missing DOCKER-USER still missing |
| BackEnds.RestoreInstalls | internal/compiler/compiler_restore.go:70-199 | from any tables, the exact end of the restore script for every combination of IPv6 tools, and when and where it fails |
| BackEnds.BackEndsAgree | internal/compiler/compiler_restore.go:70-138 | where restore goes through, the two scripts end in equal tables iff DOCKER-USER was there and, on a host with one IPv6 tool alone, the IPv6 chains already held their lines |
| BackEnds.InstallIdempotent | internal/compiler/compiler.go:90-146 | running an unchanged script again, of either kind, changes nothing |
| Sets.SetNamesApart | internal/geo/geo.go:70-70 | two country codes name one set iff letter case and outer white space alone tell them apart |
| Sets.ScriptsLoadFirstExact | internal/compiler/compiler.go:71-87 | every set named by a line either script puts in is loaded by an earlier command iff the chains written name no sets but those of the job's codes |
| Sets.SetsLoadedFirst | internal/compiler/compiler_restore.go:88-98 | with the codes the recompile collects, both scripts load every set before any line that names it |
| Sets.ScriptsRunLoaded | internal/compiler/compiler.go:71-87 | so on a kernel that refuses lines naming unloaded sets both scripts run exactly as on one that refuses nothing |
| Sets.MissingSetStops | internal/compiler/compiler.go:71-87 | and where a set ZFW-IN names is neither loaded by the script nor there, neither goes through |
| BackEnds.OutboundSurvives | internal/compiler/compiler.go:260-351 | after an apply each outbound chain (ZFW-OUT, ZFW-OUT6, ZFW-FWD-OUT) holds its compiled lines and a jump iff an enabled outbound rule is for its zone (and ip6tables is there), and otherwise is as it was, an old chain surviving with its jump; for the restore script too where it goes through, for ZFW-OUT6 with both tools or neither |
| Upkeep.ExecKeeps | internal/compiler/compiler.go:93-145 | every command a script may hold keeps at most one jump per ZFW chain, in its parent, and everybody else's rules in order |
| Upkeep.RunKeeps | engine/zfw:161-171 | so does every script, wherever it fails |
| Upkeep.BashGood | internal/compiler/compiler.go:90-351 | the bash script holds only such commands |
| Upkeep.RestoreGood | internal/compiler/compiler_restore.go:70-199 | the restore script holds only such commands |
| Reverting.RevertRestores | engine/zfw:80-106 | a revert from any tidy tables keeps foreign rules in order and leaves no ZFW chain or jump, DOCKER-USER being one RETURN, iff there is ip6tables or no IPv6 ZFW chain to remove |
| Guards.BashGuarded | internal/compiler/compiler.go:188-351 | the bash script keeps every IPv6 command, and every IPv6 jump, behind the test for ip6tables |
| Guards.RestoreGuarded | internal/compiler/compiler_restore.go:70-138 | the restore script keeps every IPv6 command behind the test for its tool, and every IPv6 jump behind that for ip6tables |
| Guards.GuardedMakesNoJump | internal/compiler/compiler_restore.go:70-138 | so on a host without ip6tables no script ever jumps in IPv6, whatever ip6tables-restore builds and wherever the script fails |
| Engine.EveryRun | engine/zfw:148-214 | the invariant over every run of applies failing anywhere, commits, reverts, expiries and time, on any host: one jump per chain, foreign rules in order, and with the rules off nothing a packet can meet; and nothing of ZFW's left at all, unless a restore script ran on a host with ip6tables-restore alone |
| Engine.CompiledPossible | engine/zfw:148-173 | the invariant covers every compiled script on every host; the bash script also leaves nothing behind on any, the restore script exactly on hosts without ip6tables-restore alone |
| Engine.CleanAfterRevertExact | engine/zfw:80-106 | a restore-mode apply then a revert leaves the host clean iff ip6tables-restore does not come without ip6tables |
| Engine.DeadmanUndoes | engine/zfw:140-146 | a safe apply that is not committed is undone: any run going on for over 120 s after arming, without commit or another successful apply, ends with the rules off and out of force, on any host; with nothing of ZFW's left where the scripts suit the host (see EveryRun) |
| Engine.StaleTimerTakesDown | engine/zfw:149-173 | the failing run: a safe apply, a successful plain one, two minutes, and the rules are off |
| Engine.OutlastsClockExact | engine/zfw:148-173 | rules outlast the mere passing of time iff no timer is armed |
| Engine.FirewallEngine.RunCommands | engine/zfw:162-162 | running a script command by command on the live tables is the interpreter's run |
| Engine.CommitOutlastsClock | engine/zfw:187-188 | a commit that passes its check cancels the dead man, whatever becomes of its later steps: nothing but time passing, the tables stay |
| Engine.CommittedStays | engine/zfw:148-201 | a safe apply that goes through and a commit within 120 seconds: what the script made of the tables stays in force however long nothing else happens |
| Engine.FailureTakesDown | engine/zfw:162-172 | an apply refused at any command, safe or not and whatever was in force, leaves the rules off and foreign rules in order |
| Engine.RevertTakesDown | engine/zfw:202-214 | so does a revert, and the timer |
| Engine.UncheckedDoesNothing | engine/zfw:149-153 | an apply or commit whose script fails the check changes nothing |
| Engine.BootExact | engine/zfw:194-210 | over any run the boot unit is enabled at the end iff a commit went through to its last step and no revert came after it; an expiry leaves it |
| Engine.FirewallEngine.ApplyRules | engine/zfw:149-174 | the apply case is the machine's apply step |
| Engine.FirewallEngine.CommitRules | engine/zfw:175-201 | the commit case is the machine's commit step, timer stopped before the steps that may fail |
| Engine.FirewallEngine.RevertRules | engine/zfw:202-210 | the revert case is the machine's revert step |
| Engine.FirewallEngine.AutoRevert | engine/zfw:211-214 | the timer's unit is the machine's expiry step |
| WholeHost.TrafficAfterApply | internal/compiler/compiler.go:28-41 | end to end, for the first apply and every later one: after either script has gone through, a packet entering a built-in chain meets the foreign rules in front of ZFW's jump, then its bypass verdict, its winner's outcome or the default, and where that returns, the foreign rules behind the jump |
| WholeHost.ContainerTraffic | internal/compiler/compiler.go:149-185 | end to end for containers: wherever a rule of the host sends a packet to DOCKER-USER, the packet gets what the rule list asks for, and where that returns it goes on behind that rule |
| WholeHost.DockerUserAfterApply | internal/compiler/compiler.go:149-185 | after an apply of either kind DOCKER-USER is exactly the compiled chain, where there is one |
| OutboundChains.OutboundWritten | internal/compiler/compiler.go:260-351 | both scripts install and hook an outbound chain iff some enabled outbound rule is for its zone, so no rule that governs a packet is left without its chain |
| Traffic.EmptiedUnnoticedExact | engine/zfw:84-87 | between two tables that differ in DOCKER-USER alone, emptied to one RETURN, all traffic fares alike for every meaning of the foreign rules iff nothing jumps there or no rule there, or in a chain it jumps to, can decide a packet |
| WholeHost.TrafficRestoredExact | engine/zfw:80-106 | after any run that ends with the rules off, IPv4 traffic on every foreign chain fares as before the engine first ran, whatever foreign rules mean, iff DOCKER-USER had not been in use |
| WholeHost.TrafficRestored | engine/zfw:80-106 | so every packet on every foreign chain fares as before, in IPv6 always, in IPv4 where DOCKER-USER had not been in use |
| WholeHost.NobodyLockedOut | engine/zfw:140-146 | two minutes after an uncommitted safe apply every packet fares as on the host before ZFW, in IPv4 where DOCKER-USER had not been in use |
| WholeHost.BanLost | internal/compiler/compiler.go:152-153 | the failing input: a Docker host with a ban in DOCKER-USER; after a safe apply that times out the banned packet is let on |
| Events.Classify | internal/events/events.go:153-168 | grouping and the two-pointer window, in place, tag every event as the quadratic definition does, whatever order sources are visited in |
| Events.ClassifySource | internal/events/events.go:170-217 | one source's pass gives exactly its events their tags and touches no other |
| Events.TagsExact | internal/events/events.go:38-62 | the tags with their numbers: a port scan iff ten different ports of the source in the last 60 s, a brute force iff the twentieth or later hit in 60 s on port 22, 445, 3389 or 8888 |
| Events.ClassifyTwice | internal/events/events.go:153-226 | classifying again adds nothing |
| Events.SeenIsHist | internal/events/events.go:170-217 | the keys of the window histogram are exactly the ports seen in the window |
| Events.HitsAreHist | internal/events/events.go:170-217 | the count of a port in the histogram is the number of its hits in the window |
| Events.BufferIsSuffix | internal/events/events.go:95-125 | the buffer never exceeds the cap, is a suffix of what was parsed, and after a cut holds at least one more than half the cap |
| Events.Read | internal/events/events.go:95-145 | buffer, classify, reverse and cut compose to the newest events first |
| Events.BoundInvisible | internal/events/events.go:95-145 | for limits up to 25001 the answer is the newest events, reversed, as from an unbounded buffer |
| Events.ReadAgrees | internal/events/events.go:95-145 | classification included: the bounded answer has the same events as an unbounded one, and the same tags on all that are over a minute younger than the newest event given up |
| Events.BoundInvisibleExact | internal/events/events.go:95-145 | that holds for every journal iff the limit is at most 25001 |
| Limiter.BucketCeiling | internal/handlers/middleware.go:42-57 | a bucket grants at most capacity + rate * T in any interval of length T |
| Limiter.TokensPay | internal/handlers/middleware.go:42-57 | every grant is paid for by tokens held or accrued |
| Limiter.NextSound | internal/handlers/middleware.go:107-139 | tokens stay in range in every bucket and the map within its cap, at every lock step |
| Limiter.AggregateCeiling | internal/handlers/middleware.go:107-124 | whatever the keys, evictions and interleavings, an interval lets at most aggCap + aggRate * T through |
| Limiter.GrantedExact | internal/handlers/middleware.go:42-57 | a call is granted iff the tokens held and those accrued since make one and the bucket can hold one |
| Limiter.BurstAfterSilence | internal/handlers/middleware.go:42-57 | after capacity / rate seconds of silence as many calls as the capacity are all granted |
| Limiter.SpacedNeverRefused | internal/handlers/middleware.go:42-57 | calls at least 1 / rate apart are never refused |
| Limiter.SpacedClientGranted | internal/handlers/middleware.go:107-124 | under any interleaving, a client whose requests reach its bucket at least 1 / rate apart is never refused by it |
| Limiter.SpacedCrowdLetThrough | internal/handlers/middleware.go:107-124 | nor does the aggregate refuse anybody while requests reach it at least 1 / rate of it apart |
| Limiter.RefusedSpendsNothing | internal/handlers/middleware.go:107-124 | over any run the aggregate is asked no more often than own buckets granted: refused requests never spend its tokens |
| Limiter.EvictionNeedsManyOthers | internal/handlers/middleware.go:127-139 | a key is evicted only after maxTrackedClients other keys were seen at or after its last request |
| Limiter.FewOthersKeepBucket | internal/handlers/middleware.go:107-139 | while fewer other keys appear, a key keeps its bucket |
| Limiter.FairShare | internal/handlers/middleware.go:107-139 | and so all requests looked up under the key together get at most capacity + rate * T grants in any interval |
| Limiter.KeyAsksItsBucket | internal/handlers/middleware.go:107-124 | while a key keeps its bucket, every request of the key asks that bucket |
| Limiter.CallIsThreeSteps | internal/handlers/middleware.go:107-124 | the lock steps of one undisturbed request change map, buckets and aggregate as the call's contract says |
| Limiter.RateBucket.Allow | internal/handlers/middleware.go:42-57 | the fields change as the bucket's step says |
| Limiter.KeyedLimiter.EvictOldest | internal/handlers/middleware.go:127-139 | removes one client seen least recently |
| Limiter.KeyedLimiter.Allow | internal/handlers/middleware.go:107-124 | the whole map afterwards: the caller's seat asked and stamped, exactly the least recently seen client gone when room was needed, all others as they were; the aggregate asked iff the own bucket granted; a caller that is new or long silent is let through when the aggregate has rested too |
| Migration.Migrate | internal/rules/rules.go:161-194 | terminates; lifts every known old version with only the stamp changed, leaves the current one, refuses newer and unknown ones |
| Migration.RulesStore.Save | internal/rules/rules.go:306-338 | whatever the set is, it is stamped, given its missing ids and written, or the file stays as it was |
| Migration.SaveKeepsValid | internal/rules/rules.go:306-326 | with fresh ids a save makes no set valid and none invalid |
| Migration.SaveKeepsRest | internal/rules/rules.go:306-326 | a save changes nothing but the stamp, to 3, and missing ids |
| Migration.LoadPromise | internal/rules/rules.go:264-304 | with the schemas written out: 3 is returned untouched, others than 0 to 2 are refused untouched, an old file is rewritten lifted, and never without its backup complete |
| Migration.LoadIsMoves | internal/rules/rules.go:264-304 | one call of Load returns and leaves what the machine's moves of one load do, with any interference between its two looks |
| Migration.RulesStore.Load | internal/rules/rules.go:264-304 | an old file is backed up under its own version, rewritten once and returned migrated; a second look that finds it migrated returns what it finds; a failing backup or write fails the load and leaves the file; anything else is left untouched |
| Migration.ConcurrentLoads | internal/rules/rules.go:264-304 | at every point of every interleaving of any number of loads: the file is the original or its migrated form, the backup complete whenever it is migrated, all sets returned equal |
| Migration.ExactlyOneRewrites | internal/rules/rules.go:264-304 | when all loads are done and no write failed, exactly one rewrite happened and every load returned the migrated set |
| Migration.NoDeadlock | internal/rules/rules.go:264-304 | wherever a run of concurrent loads has come to, some load can move until all are done, and the run is at most eight steps a load |
| Migration.RunIsBounded | internal/rules/rules.go:264-304 | every interleaving ends after a bounded number of moves |
| Audit.History.Update | internal/audit/history.go:68-84 | one batch applied to the timelines, with the flag the caller saves by |
| Audit.TimelinesAreChanges | internal/audit/history.go:68-84 | after any run of updates a timeline is the last at most 20 entries of the finding's statuses with consecutive repeats removed |
| Audit.ChangesAlternate | internal/audit/history.go:68-84 | that sequence alternates, ends in the latest status and invents nothing |
| Audit.DirtyExact | internal/audit/history.go:63-84 | the flag is true iff some timeline differs, from every history and at every time, iff the batch gives no finding two different statuses |
| Audit.ChangesExact | internal/audit/history.go:68-84 | that sequence holds exactly the entries at which the status changed, each in its turn |
| Audit.DirtyIffChanged | internal/audit/history.go:63-84 | for such batches, the flag is true iff some timeline differs |
| Audit.DirtyWithoutChange | internal/audit/history.go:63-84 | for every other batch, after twenty calls at one time stamp the next has the flag true and changes no timeline |
| ConfigFile.Manager.SaveConfig | internal/firewall/firewall.go:152-170 | succeeds iff the configuration is valid and both file operations go through; the file is the old text or the whole new one |
| ConfigFile.Manager.LoadConfig | internal/firewall/firewall.go:106-139 | every field holds what the last line naming it says |
| ConfigFile.CheckConfig | internal/firewall/firewall.go:173-192 | accepts exactly the valid configurations |
| ConfigFile.RoundTripExact | internal/firewall/firewall.go:106-170 | a configuration is read back unchanged iff its texts have no outer white space or line break and its items are neither blank nor hold a comma |
| ConfigFile.ConfigTaken | internal/firewall/firewall.go:173-192 | a configuration is valid iff its two addresses parse and every port text is a number from 1 to 65535, zeros and one plus sign allowed in front |
| ConfigFile.AddressesRead | internal/firewall/firewall.go:118-130 | the words LAN and HOST_IP of the file |
| ConfigFile.HostPortsRead | internal/firewall/firewall.go:118-139 | the words HOST_TCP_LAN and HOST_UDP_LAN |
| ConfigFile.DropsRead | internal/firewall/firewall.go:118-139 | the words DOCKER_DROP_LAN and V6_DROP |
| ConfigFile.ValidRoundTrip | internal/firewall/firewall.go:106-192 | every validated configuration is read back unchanged |
| Text.SplitOfJoin | internal/firewall/firewall.go:141-149 | splitting undoes joining when no part holds the separator |
| Tiers.AtoiList | internal/rules/migrate.go:54-70 | the numbers of the all-digit texts, wrapped at 64 bits, others dropped |
| Tiers.FromTiers | internal/rules/migrate.go:12-52 | the three tiers as rules, Orders 10 apart, empty tiers left out |
| Tiers.MigrationExact | internal/rules/migrate.go:12-52 | end to end through the compiler: on each inbound chain a packet no bypass takes is let in iff the old configuration opened its port to its sender, else the default |
| Tiers.LanKeepsItsPorts | internal/rules/migrate.go:5-52 | for a LAN written without colons, a packet from it reaches the host iff its port was listed for its protocol, and a published container port iff the port was not on the drop list; a LAN written as IPv4-mapped IPv6 loses all of them |
| Tiers.DropListNeedsLan | internal/rules/migrate.go:21-50 | DOCKER-USER drops iff there is a LAN, the sender is in it and the port was not opened |
| Tiers.MigrationClosesIPv6 | internal/rules/migrate.go:12-52 | with an IPv4 LAN every IPv6 packet that no bypass line takes is dropped |
| Tiers.NumberExact | internal/rules/migrate.go:54-70 | of the port texts the validator takes, the migration reads exactly the unsigned ones |
| Tiers.SignedPortLost | internal/rules/migrate.go:54-70 | "+80" is a valid port text that the migration loses |
| Tiers.NumbersExact | internal/rules/migrate.go:54-70 | a number is migrated iff some unsigned text of the list says it; none is lost iff all are unsigned |
| Tiers.MigratedValidExact | internal/rules/rules.go:355-404 | a validated configuration migrates to a set that passes validation iff no port list outgrows a rule |
| Seeding.SeedFromTiers | cmd/zfwd/main.go:161-180 | an existing file is never overwritten; otherwise the migrated set is written, whatever it is |
| Seeding.LoadForCompile | internal/handlers/handlers.go:212-220 | a recompile goes on with the loaded set iff the validator lets it through |
| Seeding.TooManyPublished | cmd/zfwd/main.go:165-180 | the failing input: 129 published ports, a set saved and never compiled |
| Seeding.SeededExact | cmd/zfwd/main.go:165-180 | from a validated configuration the migrated set is always saved as it is but for the version, and a recompile takes it iff no port list outgrows a rule |

## Left out

- HTTP handlers, routing, CSRF, webhooks, peer push, gateway registration, self-update and the boot watchdog: input and output around libraries.
- JWT verification and key fetching: library cryptography.
- IP, CIDR and DNS parsing: parameters (`NetParser`, `World`); `ConfigFile.ValidRoundTrip` assumes the parsers take no white space, `Tiers.MigratedValidExact` that an IPv4 CIDR is a CIDR.
- JSON encoding: taken to round-trip. Random ids: parameters, distinct where it matters.
- Script text: scripts are sequences of commands, so shell quoting, modprobe lines, comments and the contents of country sets are not modelled; loading a set succeeds unless it is the refused command, and that a script passes over a set whose file it cannot read is not modelled.
- The `-m recent` table is unbounded; the kernel's cap on stamps per source and on sources is not modelled.
- Buckets of rules without an id share the name "z": the rate-limit theorems count per bucket and hold for them together.
- Foreign rules: a foreign rule gives a verdict, lets the packet on, or jumps to another chain of the host or to DOCKER-USER and comes back; it does not jump into ZFW's chains, does not use goto, and does not write to the recent table. Loops of jumps, which the kernel refuses, are excluded where the theorem needs it (`Traffic.Ranked`).
- The boot unit: that a boot replays whatever compiled.sh then holds is not modelled, only the unit's being written and enabled; a revert's disabling and removing it is taken to succeed.
- The dead-man timer: systemd-run is taken to succeed, an engine call is one step, and the timer fires when due before more time passes.
- DOCKER-USER's traffic: that what the host forwards (transport and port) reaches DOCKER-USER after DNAT and anything else INPUT is `Verdicts.Route`, an assumption about the host.
- Journal lines: `Events.Read` starts from parsed events in time order; line parsing and the scanner's line limit are not modelled; how tags near the cut of the bounded buffer may differ is bounded by `Events.ReadAgrees`, not computed.
- ConfigFile.Manager.LoadConfig: does not model the scanner's 64 KiB line limit or a failing read.
- ConfigFile.Manager.SaveConfig: does not say what a failed write leaves in the temporary file.
- Limiter: floating-point numbers are reals and the clock never goes back.
- RuleLines.HostLines: the loops that hostLines, dockerLines and hostLines6 repeat over sources, protocols and port fragments stand once, in `SourcesLines`, `InboundPortLines`, `ProtoPortLines` and `AllPortLines`; likewise `Scripts.WriteSection` and `RestoreBackEnd.SectionRules` for the loop over the sorted rules.
- Tiers.FromTiers: a list of ids stands for the random draws.
- Seeding.SeedFromTiers: covers a host with an old configuration; the starter set of a host without one is left out.
- Defaults, the rule templates, the static audit catalogue, port and container listings, geo downloads and version banners: shallow, or data.
- Watching Docker for changes: whether the last burst of events always recompiles depends on which ready channel is chosen, which the code leaves open.
