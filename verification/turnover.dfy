/**
 * How fast the pool turns over when spawns arrive a frame at a time.
 *
 * The capacity equals the spawn rate times the maximum lifetime, but
 * `generate_particles` creates a whole frame's worth of particles at once,
 * so with long frames a slot can be claimed again while its particle is
 * still live.
 */
module PoolTurnover {
  import opened Linear
  import opened Particles

  /**
   * With steady frames of 0.3 s each frame spawns 225 particles. The first
   * particle of a frame has 224 spawns after it in that frame and 450 in the
   * next two, fewer than the 750 claims after which the cursor is back at
   * its slot, so the slot is claimed again during the third frame after it.
   * By then three time steps have left the particle live with a tenth of
   * its lifetime.
   */
  lemma CoarseFramesReclaimLiveSlot(seed: Vector, d: Draws, start: nat)
    requires |seed| == NUM_STATES
    ensures SpawnCount(0.3) == 225
    ensures SlotOf(start, MAX_PARTICLES) == SlotOf(start, 0)
    ensures 224 + 2 * 225 < MAX_PARTICLES <= 224 + 3 * 225
    ensures var p := Advance(Advance(Advance(Spawned(seed, d), 0.3), 0.3), 0.3);
      p.Live() && p.ttl == 0.1
  {
  }
}
