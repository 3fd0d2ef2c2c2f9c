# People in space: regrouping astronauts by spacecraft

This project models the core of a small HTTP microservice. The service fetches
the list of people currently in space from the Open Notify API
(`{number, people: [{name, craft}], message}`). It regroups that flat list by
spacecraft and returns
`{number_of_people, spacecrafts: [{craft, crew, icon}], message}`.
Each spacecraft gets an icon URL picked at random from a fixed list of four.

Everything lives in one module, `PeopleInSpace`, in `people_in_space.dfy`:

- The data model is a set of datatypes. `Person` is one upstream record,
  `AstroData` the upstream payload, `Spacecraft` one output group,
  `SpaceReport` the output payload and `Response` what the route answers.
  `ShuttleIcons` is the list of icon URLs.
- The grouping is specified by pure functions over the input:
  - `Crafts` gives the distinct crafts in first-seen order.
  - `Crew(ps, c)` gives the names aboard `c` in input order, with duplicates kept.
  - `FirstIndex(ps, c)` gives the position of the first person aboard `c`.
  - `IsGrouping` ties a list of groups to these: one group per craft, in
    first-seen order, each with exactly that crew, and an icon taken from the
    draw made when its craft first appeared.
- The operations are imperative, as in the source:
  - `Find` is the linear `find` over the groups built so far.
  - `GroupByCraft` is the one-pass `reduce`. It appends a group with an empty
    crew when `Find` fails, then pushes the name onto the found group's crew.
  - `RearrangeData` wraps it and passes `number` and `message` through.
  - `HandleAstronauts` is the `/astronauts` route, given the fetch outcome.
- `Math.random` is an oracle supplied by the caller. `draws` holds one real
  number in `[0, 1)` per person. The draw of person `i` is used exactly when
  person `i` is the first one aboard a craft not seen before, which is when
  the source calls `getRandomShuttleIcon`. `Math.floor(random * 4)` is
  modelled on reals. Multiplying a double by 4 is exact in IEEE arithmetic,
  so the range argument carries over to the double-precision original.

## Model

| member | source | states |
|---|---|---|
| `PeopleInSpace.RandomIndex` | index.js:59 | `Math.floor(random * n)` for a draw in `[0, 1)` is an index in `[0, n)`: the floor of `random * n`. |
| `PeopleInSpace.GetRandomShuttleIcon` | index.js:18-23 | The icon picked for any admissible draw is one of the four listed URLs. |
| `PeopleInSpace.IconIntervals` | index.js:58-60 | Icon `k` is picked exactly for draws in `[k/4, (k+1)/4)`, so every icon gets an equal share of `[0, 1)`. |
| `PeopleInSpace.FirstIndex` | index.js:34-45 | Gives the first position whose craft is `c`, or the input length when nobody is. It is below the input length iff somebody is aboard `c`, and no earlier person is aboard `c`. |
| `PeopleInSpace.CraftsComplete` | index.js:34-45 | A craft is among the keys iff some person is aboard it (both directions). |
| `PeopleInSpace.CraftsDistinct` | index.js:34-45 | The keys are pairwise distinct, because a group is only added when the search fails. |
| `PeopleInSpace.CraftsFirstSeen` | index.js:38-44 | Keys are listed in strictly increasing order of their first appearance in the input. |
| `PeopleInSpace.CrewNonEmpty` | index.js:38-46 | The crew of `c` is non-empty iff somebody is aboard `c`. |
| `PeopleInSpace.GroupedPeopleLossless` | index.js:32-48 | The groups' people, taken as a multiset, are exactly the input people. |
| `PeopleInSpace.GroupingLossless` | index.js:32-48 | For any grouping of the input: the flattened groups are a permutation of the input, and the crew sizes sum to the number of input people. |
| `PeopleInSpace.GroupingKeys` | index.js:34-45 | For any grouping: group crafts are pairwise distinct, each is some person's craft, and every person's craft has a group. |
| `PeopleInSpace.GroupingOrder` | index.js:38-44 | For any grouping: groups are ordered by the first appearance of their crafts. |
| `PeopleInSpace.GroupingCrews` | index.js:35-46 | For any grouping: each crew is exactly the names aboard, in input order with duplicates, is non-empty, and each icon is one of the four URLs. |
| `PeopleInSpace.ExtendExisting` | index.js:34-36 | When the next person's craft already has a group, pushing their name onto that group's crew keeps the grouping correct for the longer input. |
| `PeopleInSpace.ExtendNew` | index.js:38-46 | When the next person's craft has no group, appending a new group that holds only their name, with icon from their draw, keeps the grouping correct. |
| `PeopleInSpace.Find` | index.js:34-36 | Returns the first group whose craft equals the key, and none iff no group has that craft. |
| `PeopleInSpace.GroupByCraft` | index.js:32-48 | The one-pass fold with in-place push gives exactly the grouping of the input (`IsGrouping`). |
| `PeopleInSpace.RearrangeData` | index.js:31-55 | `number_of_people` equals `number` and `message` is unchanged. The groups are the grouping of the people: distinct keys, first-seen order, exact non-empty crews in input order, listed icons, no person lost or duplicated, crew sizes summing to the number of people, and no groups for an empty input. |
| `PeopleInSpace.HandleAstronauts` | index.js:64-83 | A failed fetch answers status 500 with `Failed to retrieve space data`. A successful one answers the rearranged data. |
| `PeopleInSpace.TwoAboardOneStation` | index.js:31-55 | Two people `A`, `B` aboard `ISS` give the single group `ISS` with crew `[A, B]` and the icon of the first draw. |

## Left out

- The Express application, JSON and CORS middleware, the `/` route and
  `app.listen` with its port setting (index.js:4-15, 26-28, 86-89) are server
  plumbing with no data logic.
- `HandleAstronauts` does not perform the `axios.get` and `await`
  (index.js:65-72). The outcome of the fetch is a parameter. Network errors,
  non-2xx answers, a body that is not the expected shape, and anything thrown
  while rearranging it are all one `Failure`.
- Console logging (index.js:67, 77, 80, 87-88) has no effect on the data.
- `Math.random` itself and the uniformity of its samples are not modelled.
  The caller supplies the draws in `[0, 1)`. `IconIntervals` states only that
  the four icons split `[0, 1)` into equal intervals.
- Object identity is not modelled. `find` in the source returns a reference
  to the group object, and the push goes through that alias. Here groups are
  values in a sequence, `Find` returns a position, and the push replaces that
  one element.
- The upstream payload is typed. Missing fields, non-string names or crafts,
  and a non-integer `number` are outside the model. The source would either
  pass them through or throw inside the try block.
