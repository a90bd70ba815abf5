/** The delivery-preference tokens: what a recipient types, and what `pref-<peer>` holds. */
module Preferences {
  const RightAway: string := "1"
  const OnceADay: string := "2"
  const EveryFewHours: string := "3"
}
