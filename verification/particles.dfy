/** The particle-system plugin's slot pool: 128 particle slots with an
    occupancy flag each. `Update` spawns into the lowest free slot when the
    spawn timer is due and then integrates and retires the occupied slots.

    Positions, velocities and colours are real-valued; the randomised spawn
    values are an input (the plugin draws them from `rand` seeded by the
    clock). */
module ParticlePool {
  import opened Common

  const POOL_SIZE: nat := 128

  datatype Vec2 = Vec2(x: real, y: real)
  datatype Vec4 = Vec4(x: real, y: real, z: real, w: real)

  datatype Particle = Particle(pos: Vec2, vel: Vec2, acc: Vec2, color: Vec4, colorVel: Vec4, lifetime: real)

  datatype Pool = Pool(particles: seq<Particle>, used: seq<bool>, timer: real)

  predicate Valid(p: Pool) {
    |p.particles| == POOL_SIZE && |p.used| == POOL_SIZE
  }

  function Occupied(used: seq<bool>): (n: nat)
    ensures n <= |used|
  {
    CountIf(used, (b: bool) => b)
  }

  /** `Init`: every slot free; particle data and timer are left as they were. */
  function Init(p: Pool): (p': Pool)
    requires Valid(p)
    ensures Valid(p') && p'.particles == p.particles && p'.timer == p.timer
    ensures forall i :: 0 <= i < POOL_SIZE ==> !p'.used[i]
    ensures Occupied(p'.used) == 0
  {
    var free := seq(POOL_SIZE, _ => false);
    assert forall k :: 0 <= k <= |free| ==> Occupied(free[..k]) == 0 by {
      forall k | 0 <= k <= |free|
        ensures Occupied(free[..k]) == 0
      {
        OccupiedAllFree(free[..k]);
      }
    }
    assert free[..|free|] == free;
    p.(used := free)
  }

  lemma {:induction false} OccupiedAllFree(used: seq<bool>)
    requires forall i :: 0 <= i < |used| ==> !used[i]
    ensures Occupied(used) == 0
  {
    if |used| > 0 {
      OccupiedAllFree(used[..|used| - 1]);
    }
  }

  /** The lowest free slot, if any. */
  method LowestFree(used: seq<bool>) returns (slot: Option<nat>)
    ensures slot.Some? ==>
      slot.value < |used| && !used[slot.value] && forall j :: 0 <= j < slot.value ==> used[j]
    ensures slot.None? ==> forall j :: 0 <= j < |used| ==> used[j]
  {
    var i := 0;
    while i < |used|
      invariant 0 <= i <= |used|
      invariant forall j :: 0 <= j < i ==> used[j]
    {
      if !used[i] {
        return Some(i);
      }
      i := i + 1;
    }
    return None;
  }

  /** Occupying a free slot adds exactly one to the occupied count. */
  lemma {:induction false} OccupyOne(used: seq<bool>, i: nat)
    requires i < |used| && !used[i]
    ensures Occupied(used[i := true]) == Occupied(used) + 1
  {
    var n := |used| - 1;
    if i < n {
      OccupyOne(used[..n], i);
      assert used[i := true][..n] == used[..n][i := true];
    } else {
      assert used[i := true][..n] == used[..n];
    }
  }

  /** The spawn phase: the timer advances by `dt`; once it reaches `speed`,
      the lowest free slot (if any) receives `spawned` and the timer
      restarts at 0, even when the pool is full. */
  method Spawn(p: Pool, dt: real, speed: real, spawned: Particle) returns (p': Pool)
    requires Valid(p)
    ensures Valid(p')
    ensures p.timer + dt < speed ==> p' == p.(timer := p.timer + dt)
    ensures p.timer + dt >= speed ==> p'.timer == 0.0
    ensures p.timer + dt >= speed && (exists j :: 0 <= j < POOL_SIZE && !p.used[j]) ==>
      exists i :: 0 <= i < POOL_SIZE && !p.used[i]
        && (forall j :: 0 <= j < i ==> p.used[j])
        && p'.used == p.used[i := true]
        && p'.particles == p.particles[i := spawned]
    ensures (forall j :: 0 <= j < POOL_SIZE ==> p.used[j]) ==>
      p'.used == p.used && p'.particles == p.particles
    ensures Occupied(p'.used) <= Occupied(p.used) + 1
  {
    var timer := p.timer + dt;
    p' := p.(timer := timer);
    if timer >= speed {
      var slot := LowestFree(p.used);
      if slot.Some? {
        OccupyOne(p.used, slot.value);
        p' := p'.(used := p.used[slot.value := true], particles := p.particles[slot.value := spawned]);
      }
      p' := p'.(timer := 0.0);
    }
  }

  /** One integration step of a particle: position by the old velocity,
      velocity by the acceleration, colour by its rate, lifetime down by `dt`. */
  function Advance(q: Particle, dt: real): (q': Particle)
    ensures q'.lifetime == q.lifetime - dt
    ensures q'.acc == q.acc && q'.colorVel == q.colorVel
  {
    Particle(
      Vec2(q.pos.x + q.vel.x * dt, q.pos.y + q.vel.y * dt),
      Vec2(q.vel.x + q.acc.x * dt, q.vel.y + q.acc.y * dt),
      q.acc,
      Vec4(q.color.x + q.colorVel.x * dt, q.color.y + q.colorVel.y * dt,
           q.color.z + q.colorVel.z * dt, q.color.w + q.colorVel.w * dt),
      q.colorVel,
      q.lifetime - dt)
  }

  /** The integration phase: occupied slots advance and are freed exactly
      when their lifetime reaches 0 or below; free slots are untouched. */
  method Integrate(p: Pool, dt: real) returns (p': Pool)
    requires Valid(p)
    ensures Valid(p') && p'.timer == p.timer
    ensures forall i :: 0 <= i < POOL_SIZE && p.used[i] ==>
      p'.particles[i] == Advance(p.particles[i], dt) && (p'.used[i] <==> p.particles[i].lifetime - dt > 0.0)
    ensures forall i :: 0 <= i < POOL_SIZE && !p.used[i] ==>
      p'.particles[i] == p.particles[i] && !p'.used[i]
  {
    var particles := p.particles;
    var used := p.used;
    var i := 0;
    while i < POOL_SIZE
      invariant 0 <= i <= POOL_SIZE
      invariant |particles| == POOL_SIZE && |used| == POOL_SIZE
      invariant forall j :: 0 <= j < i && p.used[j] ==>
        particles[j] == Advance(p.particles[j], dt) && (used[j] <==> p.particles[j].lifetime - dt > 0.0)
      invariant forall j :: 0 <= j < i && !p.used[j] ==> particles[j] == p.particles[j] && !used[j]
      invariant particles[i..] == p.particles[i..] && used[i..] == p.used[i..]
    {
      assert particles[i] == p.particles[i] && used[i] == p.used[i] by {
        assert particles[i..][0] == particles[i];
        assert used[i..][0] == used[i];
      }
      if used[i] {
        var q := Advance(particles[i], dt);
        particles := particles[i := q];
        if q.lifetime <= 0.0 {
          used := used[i := false];
        }
      }
      i := i + 1;
    }
    p' := p.(particles := particles, used := used);
  }

  /** `Update`: spawn, then integrate. The spawned particle is integrated in
      the same call. */
  method Update(p: Pool, dt: real, speed: real, spawned: Particle) returns (p': Pool)
    requires Valid(p)
    ensures Valid(p')
    ensures p.timer + dt >= speed ==> p'.timer == 0.0
    ensures p.timer + dt < speed ==> p'.timer == p.timer + dt
    ensures p.timer + dt < speed ==> forall i :: 0 <= i < POOL_SIZE && !p.used[i] ==> !p'.used[i]
    ensures forall i :: 0 <= i < POOL_SIZE && p'.used[i] ==> p.used[i] || p.timer + dt >= speed
    ensures forall i, j ::
      (0 <= i < POOL_SIZE && 0 <= j < POOL_SIZE && p'.used[i] && !p.used[i] && p'.used[j] && !p.used[j]) ==> i == j
    ensures forall i :: 0 <= i < POOL_SIZE && p.used[i] ==>
      p'.particles[i] == Advance(p.particles[i], dt) && (p'.used[i] <==> p.particles[i].lifetime - dt > 0.0)
    ensures p.timer + dt < speed ==> forall i :: 0 <= i < POOL_SIZE && !p.used[i] ==>
      p'.particles[i] == p.particles[i]
    ensures p.timer + dt >= speed ==> forall i :: 0 <= i < POOL_SIZE && !p.used[i] ==>
      if forall j :: 0 <= j < i ==> p.used[j] then
        p'.particles[i] == Advance(spawned, dt) && (p'.used[i] <==> spawned.lifetime - dt > 0.0)
      else
        p'.particles[i] == p.particles[i] && !p'.used[i]
  {
    var spawnedPool := Spawn(p, dt, speed, spawned);
    p' := Integrate(spawnedPool, dt);
  }
}
