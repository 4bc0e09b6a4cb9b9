# Climber game and score endpoint: a Dafny model

This project models the two parts of the portfolio site whose behaviour can be stated
precisely.

1. **The score-submission endpoint** (`netlify/functions/submitScore.js`), module
   `SubmitScore` in `submit_score.dfy`. It has three parts:
   - a per-client sliding-window rate limiter that keeps a map from client address to
     request timestamps in instance memory (class `ScoreEndpoint`, field `requestStore`);
   - the player-name, score and level guards;
   - the HTML escaping of the name.

   It also maps each outcome to a status code: 405, then 429, then 400, then 500 or 200.
   The clock (`Date.now()`) and the backend call are inputs.
2. **The climber game's movement and collision** (`cheepchoop.js`), module `Cheepchoop` in
   `cheepchoop.dfy`. It covers:
   - the sphere-against-platform test and the sphere-against-ground test;
   - the per-frame walk, jump, gravity and landing logic of `move()`
     (class `Climber`, method `Move`);
   - the camera-pitch clamp of the mouse handler;
   - the loop that places the ten platforms.

   Numbers are reals.

`wrappers.dfy` holds the `Option` datatype both modules use.

What is proved, in the system's terms:

- **Rate limiting.**
  - A request is refused exactly when at least five earlier requests from the same
    address fall in the last 60 000 ms.
  - Every request that reaches the limiter is recorded, including refused ones. The
    surviving timestamps keep their order, `now` is appended, and other addresses'
    entries are not touched.
  - Over any history of requests made no later than `now`, the count of recent entries
    equals the initial recent entries plus the address's requests inside the window
    (`ReplayCount`). So from a fresh instance, the first five requests of a client within
    a minute pass and every later one is refused.
- **Validation.** Each guard is written as the code has it: JavaScript truthiness,
  comparisons that are false on `NaN`, the anchored character-class test. The name and
  score guards are then proved to accept exactly:
  - a non-empty string of at most 50 characters from `[a-zA-Z0-9-_. ]` (name);
  - a finite number from 0 to 9999 (score).

  The level guard is the membership test in the seven level names itself. Every accepted
  level also passes the name guard and needs no escaping.

  The first failing guard names the 400 error.
- **Escaping.**
  - The five chained replacements, ampersand first, equal character-by-character
    escaping.
  - Their output has no raw `<`, `>`, `"` or `'`, and every `&` in it begins one of the
    five entities.
  - Decoding the entities gives the input back.
  - Escaping leaves every name that passed validation unchanged, so the name forwarded
    to the backend is the submitted one.
- **Handler.**
  - A non-POST request gets 405 and leaves the rate limiter untouched.
  - Otherwise the order is 429, then 400 (or 500 for an unparseable body), then 200 or
    500 on the backend's result.
  - The backend is called exactly when all guards pass.
- **Collision.**
  - The clamped point lies in the box and is the box's nearest point to the sphere's
    centre.
  - The sphere-box test therefore holds exactly when some point of the box lies strictly
    inside the sphere.
  - A colliding sphere's centre is within 6.5 of the platform's height. Placed
    platforms are 20 apart, so a sphere touches at most one of them.
  - The ground test holds exactly when some point at or below height -10 lies in the
    sphere or on its surface.
- **One frame.**
  - After every frame, `grounded` implies a zero vertical speed, and the centre is at
    height -5 or above.
  - The vertical speed stays in [-4, 7.6].
  - A jump needs the ground and always takes off.
  - While airborne, the speed drops by 0.4 per frame and is capped at -4. Momentum is
    kept and applied again.
  - Falling into platforms snaps the sphere onto the highest of them, ahead of the
    ground. The ground comes next, and with neither the frame ends airborne.
  - Resting on a platform does not last: a grounded sphere above the ground that does
    not jump checks no platform, because its speed is 0 and not negative. It ends the
    next frame airborne and, standing still on a placed platform, lands on it again on
    the following one (`RestingOnPlatformLandsAgain`).
- **Pitch and placement.**
  - The pitch stays within [-π/2 + 0.5, π/2].
  - Platform `i` sits at height 20·i with x and z in [-100, 100).

## Model

| member | source | states |
|---|---|---|
| `SubmitScore.Recent` | netlify/functions/submitScore.js:10 | the filtered log holds exactly the timestamps later than `now - 60000` and is never longer than the input |
| `SubmitScore.RecentAppend` | netlify/functions/submitScore.js:10 | filtering distributes over concatenation, i.e. it keeps the stored order |
| `SubmitScore.RecentTwice` | netlify/functions/submitScore.js:10-12 | pruning at an earlier request never removes a timestamp that is recent at a later time |
| `SubmitScore.Recorded` | netlify/functions/submitScore.js:9-12 | after a request the address is a key, its last entry is `now`, its entries are `now` and the surviving old ones, and every other address keeps its entry |
| `SubmitScore.ReplayCount` | netlify/functions/submitScore.js:4-14 | after any history of requests up to `now`, an address's recent entries number its initially recent ones plus its requests inside the window, refused ones included |
| `SubmitScore.SlidingWindow` | netlify/functions/submitScore.js:4-14 | a request is refused iff the initial recent entries plus the address's requests in the last minute reach five |
| `SubmitScore.FreshInstanceLimit` | netlify/functions/submitScore.js:2-14 | from an empty log, a request is refused iff at least five requests of that address fall in the last minute |
| `SubmitScore.Limited` | netlify/functions/submitScore.js:13 | a refused address has at least five logged entries, and an address never seen is never refused |
| `SubmitScore.ScoreEndpoint.IsRateLimited` | netlify/functions/submitScore.js:4-14 | the log becomes the recorded one and the answer is "at least five recent entries before this request" |
| `SubmitScore.ScoreEndpoint.constructor` | netlify/functions/submitScore.js:2 | an instance starts with an empty log |
| `SubmitScore.MatchesNamePattern` | netlify/functions/submitScore.js:47 | the anchored one-or-more character-class test holds iff the string is non-empty and every character is a letter, digit, `-`, `_`, `.` or space |
| `SubmitScore.InvalidName` | netlify/functions/submitScore.js:45-47 | the name guard, written with JavaScript truthiness, passes iff the value is a string of 1 to 50 name characters |
| `SubmitScore.InvalidScore` | netlify/functions/submitScore.js:56-57 | the score guard, with comparisons false on `NaN`, passes iff the number is finite and within [0, 9999] |
| `SubmitScore.InvalidLevel` | netlify/functions/submitScore.js:66-67 | the guard is the membership test in the seven names; as a side fact, an accepted level is a string of 4 to 8 characters |
| `SubmitScore.ValidLevelsArePlainNames` | netlify/functions/submitScore.js:66-67 | every accepted level would also pass the name guard |
| `SubmitScore.LevelNeedsNoEscaping` | netlify/functions/submitScore.js:66-88 | the level, forwarded without escaping, never holds a character the escaping would change |
| `SubmitScore.Validate` | netlify/functions/submitScore.js:44-73 | no error iff all three guards pass; otherwise the error names the first failing guard in the order name, score, level |
| `SubmitScore.ReplaceAll` | netlify/functions/submitScore.js:77-81 | a global single-character replacement introduces no character outside the input and the entity, removes the replaced one when the entity lacks it, and is the identity when the character is absent |
| `SubmitScore.Sanitize` | netlify/functions/submitScore.js:76-81 | the escaped name holds no raw `<`, `>`, `"` or `'` |
| `SubmitScore.SanitizeIsEscape` | netlify/functions/submitScore.js:76-81 | the chained replacements, ampersand first, equal character-by-character escaping |
| `SubmitScore.SanitizeEntities` | netlify/functions/submitScore.js:76-81 | every `&` in the escaped name begins one of `&amp;`, `&lt;`, `&gt;`, `&quot;`, `&#039;` |
| `SubmitScore.UnescapeSanitize` | netlify/functions/submitScore.js:76-81 | decoding the five entities gives back the original name: escaping loses nothing |
| `SubmitScore.SanitizeKeepsValidName` | netlify/functions/submitScore.js:45-81 | escaping leaves every name that passed validation unchanged |
| `SubmitScore.ClientIpOf` | netlify/functions/submitScore.js:30 | a non-empty `client-ip` header wins; when `client-ip` is missing or empty, `x-forwarded-for` is used if present; the address is undefined iff both are absent (an empty `client-ip` counting as absent) |
| `SubmitScore.Respond` | netlify/functions/submitScore.js:16-131 | 405 iff not POST; 429 iff POST and limited; 400 iff admitted with a failing guard, with that guard's message; 500 iff admitted and the body is unparseable or the backend fails; 200 iff admitted, valid and the backend succeeds; the backend is called iff admitted and valid, with the submitted name unchanged, the score and the level |
| `SubmitScore.ScoreEndpoint.Handler` | netlify/functions/submitScore.js:16-131 | a non-POST request leaves the log unchanged; a POST records the request; the response is the decision for the limiter's answer |
| `Cheepchoop.ClosestPoint` | cheepchoop.js:109-122 | the clamped point lies in the platform's box and is the sphere's centre itself when that is inside |
| `Cheepchoop.ClampIsNearest` | cheepchoop.js:120-122 | clamping a coordinate gives the nearest value of the interval |
| `Cheepchoop.ClosestPointIsNearest` | cheepchoop.js:118-125 | no point of the box is nearer to the centre than the clamped point |
| `Cheepchoop.SphereBoxCollision` | cheepchoop.js:109-128 | a sphere whose centre lies inside the platform's box always collides with it |
| `Cheepchoop.SphereBoxCollisionMeaning` | cheepchoop.js:109-128 | the sphere-box test holds iff some point of the box is strictly inside the sphere |
| `Cheepchoop.CollisionIsNear` | cheepchoop.js:109-128 | a colliding sphere's centre is less than 6.5 above or below the platform's centre |
| `Cheepchoop.SpherePlaneCollisionMeaning` | cheepchoop.js:131-137 | the ground test holds iff some point at or below height -10 lies in the sphere or on its surface |
| `Cheepchoop.HighestHit` | cheepchoop.js:248-261 | the scan finds a height whenever a platform collides, and no colliding platform lies above it |
| `Cheepchoop.ScanPlatforms` | cheepchoop.js:247-261 | the loop over the platforms lands the sphere exactly when it is falling and the scan finds a colliding platform, and the height it keeps is that scan's |
| `Cheepchoop.HighestHitIsMax` | cheepchoop.js:248-261 | the platform scan finds a height iff some platform collides, and that height is a colliding platform's that no colliding platform exceeds |
| `Cheepchoop.Steer` | cheepchoop.js:222-229 | walking changes only x, z and the momentum; x and z move by the new momentum; in the air the momentum is kept; on the ground it becomes the walking direction times 1, or times 2 with the run key |
| `Cheepchoop.GroundStepLength` | cheepchoop.js:194-225 | on the ground a unit direction gives a step of squared length 1 walking and 4 running |
| `Cheepchoop.Jump` | cheepchoop.js:233-237 | a jump from the ground leaves it rising at 8; otherwise the body is unchanged; position and momentum never change |
| `Cheepchoop.Fall` | cheepchoop.js:239-243 | airborne, the speed becomes max(v - 0.4, -4) and the height changes by it; grounded, nothing changes; x and z are kept |
| `Cheepchoop.Settle` | cheepchoop.js:245-276 | touching the ground, or falling into some platform, grounds the sphere with zero speed; otherwise only `grounded` changes, to false; x, z and momentum are kept |
| `Cheepchoop.ResetBelowGround` | cheepchoop.js:278-283 | the sphere ends at height -5 or above, and a sphere already there is left unchanged |
| `Cheepchoop.Frame` | cheepchoop.js:222-283 | after every frame, `grounded` implies zero vertical speed and the centre is at height -5 or above |
| `Cheepchoop.FramePreservesValid` | cheepchoop.js:222-283 | a frame keeps the sphere above the ground, at rest when grounded, and its vertical speed within [-4, 7.6] |
| `Cheepchoop.MomentumInAir` | cheepchoop.js:222-229 | in the air the momentum is kept and applied again to x and z |
| `Cheepchoop.JumpTakesOff` | cheepchoop.js:233-243 | a jump from the ground always ends the frame airborne, 7.6 higher and rising at 7.6 |
| `Cheepchoop.JumpOnlyFromGround` | cheepchoop.js:233-283 | the vertical speed rises to a non-zero value only when the jump key is pressed on the ground |
| `Cheepchoop.GravityWhileAirborne` | cheepchoop.js:239-243 | airborne, the speed drops by 0.4 and is capped below at -4, and the height changes by the new speed |
| `Cheepchoop.LandOnHighestPlatform` | cheepchoop.js:245-267 | falling into platforms grounds the sphere with zero speed on top of a colliding platform that no colliding platform is above, ahead of the ground |
| `Cheepchoop.LandOnGround` | cheepchoop.js:268-272 | without a platform landing, touching the ground grounds the sphere at height -5 with zero speed |
| `Cheepchoop.StayAirborne` | cheepchoop.js:273-276 | with neither a platform landing nor the ground, the frame ends airborne where gravity put the sphere |
| `Cheepchoop.RestingOnPlatformFlickers` | cheepchoop.js:239-276 | a grounded sphere above the ground that does not jump ends the frame airborne at the same height |
| `Cheepchoop.RestingOnPlatformLandsAgain` | cheepchoop.js:222-283 | a sphere resting still on a placed platform ends the next frame airborne and the frame after it grounded again |
| `Cheepchoop.ClampPitch` | cheepchoop.js:179 | the pitch ends in [-π/2 + 0.5, π/2], unchanged when already inside, at the nearer bound otherwise |
| `Cheepchoop.Spread` | cheepchoop.js:54-55 | a draw in [0, 1) maps into [-100, 100) |
| `Cheepchoop.PlacePlatforms` | cheepchoop.js:47-58 | ten platforms, platform `i` at height 20·i with x and z within [-100, 100), built from the two draws made for it (z first) |
| `Cheepchoop.PlacedPlatformsHitAtMostOnce` | cheepchoop.js:47-58 | a sphere collides with at most one of the placed platforms |
| `Cheepchoop.Climber.constructor` | cheepchoop.js:101-104 | the sphere starts at height 5, airborne and still, with zero yaw and pitch and the placed platforms |
| `Cheepchoop.Climber.Move` | cheepchoop.js:192-283 | the new state is the frame function of the old state, and the state invariant is kept |
| `Cheepchoop.Climber.OnMouseMove` | cheepchoop.js:170-181 | while the pointer is locked, yaw and pitch move by 0.002 per unit of mouse movement and the pitch is clamped; otherwise nothing changes |

## Left out

- Rendering: the scene, textures, skybox, light, the sphere's rolling rotation and the camera-follow offset (`cheepchoop.js` lines 4-73, 209-220, 286-292). These are library calls with no logic of their own.
- Key and mouse listeners and pointer lock (`cheepchoop.js` lines 84-93, 140-166, 184-189). The frame's input carries the jump key, the run key and the walking direction, already normalised and rotated by the yaw. Computing that direction needs sine and cosine. Pointer lock is a parameter of `OnMouseMove`.
- `Cheepchoop.Climber.Move`: momentum is kept as its x and z parts. The direction is rotated about the vertical axis, so its vertical part is always zero and the code adds zero to the height.
- `Date.now()` and `Math.random()` are parameters. The draws are assumed to lie in [0, 1), as `Math.random` guarantees.
- IEEE-754 rounding: numbers are reals. The sphere-box test compares squared distances, which is the same as comparing distances for non-negative values. `Math.PI` is the decimal 3.141592653589793.
- `SubmitScore.Submission`: the score arrives already converted by `Number(score)`. The string-to-number conversion is the JavaScript runtime's.
- `SubmitScore.Respond`: the forwarded score is the number itself. Its `toString` formatting is not modelled.
- `JSON.parse` of the body and the destructuring are not modelled: the body is either unparseable (the throw reaches the `catch` and gives 500) or the three fields.
- The backend `fetch` and `response.json()` are one input: a parsed ok response, a non-ok status, or a thrown error. Logging is not modelled.
- Name lengths: JavaScript counts UTF-16 code units and Dafny counts characters. The two differ only for non-ASCII names, which the character test rejects either way.
- Concurrency between serverless instances: each instance has its own `requestStore`, and one sequential instance is modelled. The log's growth over many addresses is not bounded in the source, and not in the model.
- `netlify/functions/getHighScores.js`, `netlify/functions/record-event.js`, `netlify/functions/getGeminiResponse.js`, `analytics.js`, `main.js` and `vite.config.js` are not part of this model. They forward requests to hosted services, drive the page, or configure the build.
