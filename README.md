# The Liar Game: wait rooms, votes and search dispatch

This is a Dafny model of three pieces of The Liar Game backend:

- **Wait-room service** (`wait_room_service.dfy`, module `WaitRooms`). A host opens a wait room. Other users join and leave it, and the host tears it down. `WaitRoomService` is a class with two fields for the two Redis repositories: `rooms`, a map from room id to `WaitRoom`, and `joins`, a set of `JoinMember(userId, roomId)` markers. Each public operation is a method. It runs its checks in the source's order, then writes to both stores. Its contract gives the complete new state on every path: success, rejection and a missing room.
- **Vote policy** (`vote_policy.dfy`, module `Votes`). This models what `VotePolicyImplTest` asserts about `saveVote`, `voteLiarUser` and `getMaxVotedLiarUser`. Class `VotePolicy` maps each game to its vote id and to its live ballots, with one ballot per voter. The tally `MaxVotedLiars` is a pure function over the ballots. Lemmas show three things about it: it returns exactly the most-accused players (ties included); it does not depend on ballot order; and the test's five votes for "2" give exactly one result, `{liarId: "2", cnt: 5}`, in any casting order.
- **Search dispatch** (`search_connector.dfy`, module `Search`). `SearchConnector` upper-cases the search type and then picks one of three searches. An unknown type fails with `NotFound`. The chosen search gets the request body unchanged.
- `errors.dfy` (module `Errors`) holds the exception kinds and the `Result` type used in their place.

Some collaborators are not part of this model: the policy service, `MemberService.findUsernameById`, and the `WaitRoom` domain methods `joinMembers` and `leaveMember`. They are function-valued constants given to `WaitRoomService`'s constructor, with no contract. So every service contract holds whatever these collaborators answer. The two policies are fixed functions of the requesting user's id alone: a policy answer cannot depend on the rooms or markers stored at the time of the call. A policy check that throws is modelled as a `false` answer, and the service then returns `Failure(PolicyViolation)`.

Values the source obtains from outside are parameters:
- the id that `WaitRoom.of` gives a new room (`newId`);
- the id of a newly created vote (`newVoteId`).

The `WaitRoom.of` and `JoinMember.of` factories are not part of the shown source. The model takes their evident shape:
- a new room has the requester as host and as its only member;
- `JoinMember.of(waitRoom)` is the host's marker for that room.

A Redis `save(room)` stores the room under its own id. So every save is `rooms[room.id := room]`, and `WaitRoomService.Valid()` states that each key is its room's id.

In three places the service code does less than one might expect, and the model follows the code:
- Capacity and "the host cannot leave" are not checked by `WaitRoomService`. They belong to `WaitRoom.joinMembers` / `WaitRoom.leaveMember`, which are left open here.
- `WaitRoomService` takes no lock, so concurrent calls on one room are not serialised by this code. The model is single-threaded (see "Left out").
- Host teardown deletes the marker of each user listed in the room's members. A marker of that room for a user not listed there is kept.

## Model

| member | source | states |
|---|---|---|
| `WaitRooms.WaitRoomService.constructor` | wait-service/src/main/java/liar/waitservice/wait/service/WaitRoomService.java:25-29 | both stores start empty; the injected collaborators are the ones given |
| `WaitRooms.WaitRoomService.FindById` | wait-service/src/main/java/liar/waitservice/wait/service/WaitRoomService.java:115-117 | Failure(NotExistsRoomId) exactly when the id is not stored, otherwise the stored room |
| `WaitRooms.WaitRoomService.FindWaitRoomId` | wait-service/src/main/java/liar/waitservice/wait/service/WaitRoomService.java:34-36 | NotExistsRoomId exactly for an unknown id; otherwise the stored room, unchanged, whose id is the one asked for |
| `WaitRooms.WaitRoomService.FindWaitRoomByHostId` | wait-service/src/main/java/liar/waitservice/wait/service/WaitRoomService.java:38-40 | a stored room hosted by the user; NotExistsRoomId exactly when no stored room has that host |
| `WaitRooms.WaitRoomService.SaveWaitRoom` | wait-service/src/main/java/liar/waitservice/wait/service/WaitRoomService.java:59-64 | a policy rejection fails with both stores unchanged; otherwise the new room is stored under the returned id with the requester as host, and the host's marker is added; nothing else changes |
| `WaitRooms.WaitRoomService.AddMembers` | wait-service/src/main/java/liar/waitservice/wait/service/WaitRoomService.java:69-78 | join policy first, then NotExistsRoomId for a missing room, then the answer of joinMembers is returned; only an accepted join stores the updated room and adds JoinMember(userId, roomId); every other outcome leaves both stores unchanged |
| `WaitRooms.WaitRoomService.LeaveMember` | wait-service/src/main/java/liar/waitservice/wait/service/WaitRoomService.java:83-90 | NotExistsRoomId for a missing room; a refused leave returns false with both stores unchanged; an accepted leave removes the user's marker, stores the updated room and returns true |
| `WaitRooms.WaitRoomService.DeleteWaitRoomByHost` | wait-service/src/main/java/liar/waitservice/wait/service/WaitRoomService.java:95-103 | NotExistsRoomId for a missing room; Success(true) for the host and Success(false) for anyone else; a non-host changes nothing; the host's teardown removes the markers of all members in that room and the room, so a later lookup fails, and other rooms and other rooms' markers are untouched |
| `WaitRooms.WaitRoomService.SaveWaitRoomAndStatusJoinHost` | wait-service/src/main/java/liar/waitservice/wait/service/WaitRoomService.java:138-143 | stores the factory-built room under its id and adds its host's marker |
| `WaitRooms.WaitRoomService.SaveWaitRoomAndStatusJoinMember` | wait-service/src/main/java/liar/waitservice/wait/service/WaitRoomService.java:148-152 | stores the room under its id, adds the joiner's marker, returns true |
| `WaitRooms.WaitRoomService.SaveWaitRoomAndStatusLeaveMember` | wait-service/src/main/java/liar/waitservice/wait/service/WaitRoomService.java:157-160 | removes the leaver's marker and stores the room under its id |
| `WaitRooms.WaitRoomService.SaveWaitRoomAndStatusLeaveAll` | wait-service/src/main/java/liar/waitservice/wait/service/WaitRoomService.java:165-168 | the loop over the members removes exactly their markers in that room, then the room is removed |
| `WaitRooms.MarkersOfRoom` | wait-service/src/main/java/liar/waitservice/wait/service/WaitRoomService.java:166 | a marker is among those teardown removes exactly when it is in that room and belongs to a listed member |
| `Votes.VotePolicy.SaveVote` | game-mvc-service/src/test/java/liar/gamemvcservice/game/service/vote/VotePolicyImplTest.java:69 | the first call for a game stores the new vote id with an empty ballot box; a later call returns the stored id and changes nothing |
| `Votes.VotePolicy.SaveVoteRepeatedly` | game-mvc-service/src/test/java/liar/gamemvcservice/game/service/vote/VotePolicyImplTest.java:59-85 | any number of saveVote calls on one game all return the same id, the game's stored vote id; an existing vote is left as it was, and on a fresh game the first id is stored with an empty ballot box and nothing else changes |
| `Votes.VotePolicy.VoteLiarUser` | game-mvc-service/src/test/java/liar/gamemvcservice/game/service/vote/VotePolicyImplTest.java:96 | for a game with a vote id, the voter's ballot replaces any earlier one of theirs; nothing else changes |
| `Votes.VotePolicy.CastBallots` | game-mvc-service/src/test/java/liar/gamemvcservice/game/service/vote/VotePolicyImplTest.java:95-97 | the loop of voteLiarUser calls leaves the game's ballots equal to the ballots cast in order |
| `Votes.VotePolicy.GetMaxVotedLiarUser` | game-mvc-service/src/test/java/liar/gamemvcservice/game/service/vote/VotePolicyImplTest.java:98 | the tally of the game's live ballots, empty for a game without a vote |
| `Votes.VotePolicy.DeleteAll` | game-mvc-service/src/test/java/liar/gamemvcservice/game/service/vote/VotePolicyImplTest.java:52-55 | the vote store is emptied |
| `Votes.MaxVotedLiarsMeaning` | game-mvc-service/src/test/java/liar/gamemvcservice/game/service/vote/VotePolicyImplTest.java:98-103 | a result is in the tally exactly when its cnt is the number of ballots accusing its liarId, is positive and is no smaller than any player's count (ties all returned, no ballots gives no result) |
| `Votes.MaxCountIsMaximum` | game-mvc-service/src/test/java/liar/gamemvcservice/game/service/vote/VotePolicyImplTest.java:98-103 | the maximum count bounds every player's count and is reached by an accused player |
| `Votes.CountForPositive` | game-mvc-service/src/test/java/liar/gamemvcservice/game/service/vote/VotePolicyImplTest.java:98-103 | a player has a positive count exactly when some ballot accuses them |
| `Votes.CountForAppend` | game-mvc-service/src/test/java/liar/gamemvcservice/game/service/vote/VotePolicyImplTest.java:95-97 | counts of two ballot lists add up |
| `Votes.CountForPermutation` | game-mvc-service/src/test/java/liar/gamemvcservice/game/service/vote/VotePolicyImplTest.java:108-132 | reordering the ballots does not change any player's count |
| `Votes.MaxVotedLiarsPermutation` | game-mvc-service/src/test/java/liar/gamemvcservice/game/service/vote/VotePolicyImplTest.java:108-132 | reordering the ballots does not change the tally |
| `Votes.CastAllContents` | game-mvc-service/src/test/java/liar/gamemvcservice/game/service/vote/VotePolicyImplTest.java:114-125 | casting ballots of distinct voters leaves the others' earlier ballots plus exactly the cast ballots |
| `Votes.TallyOrderIndependent` | game-mvc-service/src/test/java/liar/gamemvcservice/game/service/vote/VotePolicyImplTest.java:108-132 | casting the same ballots of distinct voters in any order gives the same tally |
| `Votes.Unanimous` | game-mvc-service/src/test/java/liar/gamemvcservice/game/service/vote/VotePolicyImplTest.java:101-103 | when every ballot accuses one player, the tally is that player alone with one vote per ballot |
| `Votes.UnanimousCastTally` | game-mvc-service/src/test/java/liar/gamemvcservice/game/service/vote/VotePolicyImplTest.java:95-103 | on a fresh vote, distinct voters all accusing one player give exactly that player with their number as cnt |
| `Votes.FiveVotesForTwoTally` | game-mvc-service/src/test/java/liar/gamemvcservice/game/service/vote/VotePolicyImplTest.java:89-132 | voters "1" to "5" each accusing "2", cast in any order, give exactly one result, liarId "2" with cnt 5 |
| `Votes.UpsertDistinct` | game-mvc-service/src/test/java/liar/gamemvcservice/game/service/vote/VotePolicyImplTest.java:96 | recording a ballot keeps one live ballot per voter |
| `Votes.RevoteOverwrites` | game-mvc-service/src/test/java/liar/gamemvcservice/game/service/vote/VotePolicyImplTest.java:96 | a re-vote replaces the voter's first ballot: voting a then b leaves the same ballots as voting b alone |
| `Search.ConnectSearchService` | wait-service/src/main/java/liar/waitservice/wait/service/search/SearchConnector.java:23-38 | the chosen search's type name is the upper-cased search type; NotFound exactly when no search has that name |
| `Search.SearchWaitRoomCondition` | wait-service/src/main/java/liar/waitservice/wait/service/search/SearchConnector.java:19-21 | WAITROOMID, WAITROOMNAME and HOSTNAME give the room-id, room-name and host-name search applied to the unchanged body, its answer returned as is; any other type fails with NotFound |
| `Search.ConnectTypeName` | wait-service/src/main/java/liar/waitservice/wait/service/search/SearchConnector.java:26-33 | each search is selected by its own type name |
| `Search.ConnectOnlyOnType` | wait-service/src/main/java/liar/waitservice/wait/service/search/SearchConnector.java:24 | two requests with the same upper-cased type dispatch alike, whatever their bodies |
| `Search.ConnectIgnoresCase` | wait-service/src/main/java/liar/waitservice/wait/service/search/SearchConnector.java:24 | dispatching the upper-cased type gives the same result as dispatching the type as sent |
| `Search.ToUpperIdempotent` | wait-service/src/main/java/liar/waitservice/wait/service/search/SearchConnector.java:24 | upper-casing twice is upper-casing once |
| `Search.ConnectLowerCaseRoomId` | wait-service/src/main/java/liar/waitservice/wait/service/search/SearchConnector.java:24-27 | the mixed-case spelling "waitRoomId" selects the room-id search |

## Left out

- Concurrency is not modelled: the Redisson locks, `@Transactional`, and the thread arrays of the vote test. The model is single-threaded. The concurrent vote test appears as order-independence of the tally (`TallyOrderIndependent`). The concurrent `saveVote` test appears as repeated calls (`SaveVoteRepeatedly`).
- `findWaitRoomByHostName` / `findWaitRoomByRoomName` are not modelled. They are Redis secondary-index queries; their matching rules are not in the source.
- The policy service, `MemberService.findUsernameById` and the `WaitRoom` domain methods `joinMembers` / `leaveMember` have no behaviour of their own here. They are unconstrained injected functions, so capacity, duplicate joins and "the host cannot leave" are not modelled.
- WaitRooms.WaitRoomService.AddMembers and WaitRooms.WaitRoomService.LeaveMember store the room that `joinMembers` / `leaveMember` return under that room's own id. The model does not constrain that id to be the requested room id, so no contract says that a later lookup of the requested id returns the updated room.
- Real Redis storage is replaced by a map and a set. If `JoinMember` records are keyed by a single field in Redis, saving one could overwrite another; a set cannot show that.
- Votes.VotePolicy.GetMaxVotedLiarUser: returns a set of results, not a list. The order of the list returned by the unshown `VotePolicyImpl` is not modelled. For a game without a vote it returns the empty set; that answer is a choice of this model, since what `VotePolicyImpl` does there is not part of this model.
- Votes.VotePolicy.VoteLiarUser: requires that the game already has a vote id, as the test always calls `saveVote` first. The error for a game without a vote is not modelled, because `VotePolicyImpl` is not part of this model.
- Votes.VotePolicy.SaveVote: an empty participant list is not rejected. The test does not exercise that case.
- Search.UpperSearchType: upper-cases only the ASCII letters. Java's locale-dependent Unicode upper-casing is not modelled, and `SearchWaitRoomDto` is not part of this model.
- The three search services are unconstrained functions from the body to a list of views. Their queries are not part of this model.
- Game creation (`Game.of`) and the game's roles, topic and turns are not modelled. A `Game` here is a record; the vote only uses its id.
