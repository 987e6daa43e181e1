/**
 * The module-level state of script.js and the operations that change it:
 * adding players and tasks, deleting a task, picking a player, spinning the
 * wheel frame by frame until it settles on a task, and crediting the
 * selected task to the selected player.
 */
module App {
  import opened Wrappers
  import Roster
  import Wheel
  import Scoring

  /** JavaScript truthiness of a selection: present and not the empty string. */
  predicate Truthy(s: Option<string>)
  {
    s.Some? && s.value != ""
  }

  /** `tasks[i]`: the label at `i`, or `undefined` outside the list. */
  function Lookup(tasks: seq<string>, i: int): (r: Option<string>)
    ensures r.Some? <==> 0 <= i < |tasks|
    ensures r.Some? ==> r.value in tasks
  {
    if 0 <= i < |tasks| then Some(tasks[i]) else None
  }

  class TaskWheel {
    var players: seq<string>
    var tasks: seq<string>
    var scores: Scoring.Ledger
    var selectedPlayer: Option<string>
    var selectedTask: Option<string>
    /** Current rotation of the wheel, in degrees. */
    var angle: real
    var spinning: bool
    /** The total rotation of the spin in progress, which its animation frames close over. */
    var spinAngle: real
    /** The number of wedges the running spin draws, fixed when it starts (the `arc` of its frames). */
    var wedges: nat

    /** While a spin runs, its total rotation is between two and three full turns and it draws at least one wedge. */
    ghost predicate Valid()
      reads this`spinning, this`spinAngle, this`wedges
    {
      spinning ==> 720.0 <= spinAngle < 1080.0 && wedges >= 1
    }

    /** The state at page load: rosters and ledger as stored, nothing selected, wheel at rest. */
    constructor (players: seq<string>, tasks: seq<string>, scores: Scoring.Ledger)
      ensures Valid()
      ensures this.players == players && this.tasks == tasks && this.scores == scores
      ensures selectedPlayer == None && selectedTask == None
      ensures angle == 0.0 && !spinning
    {
      this.players, this.tasks, this.scores := players, tasks, scores;
      selectedPlayer, selectedTask := None, None;
      angle, spinning, spinAngle, wedges := 0.0, false, 0.0, 0;
    }

    /** `addPlayer`: the typed name, trimmed, joins the roster if it is new and non-empty. */
    method AddPlayer(input: string)
      modifies this`players
      ensures players == Roster.AddIfNew(old(players), Roster.Trim(input))
      ensures Roster.Distinct(old(players)) ==> Roster.Distinct(players)
    {
      var name := Roster.Trim(input);
      if name != "" && name !in players {
        players := players + [name];
      }
    }

    /**
     * `pickRandomPlayer`: with `rand` the value of `Math.random()`, selects the
     * player at `floor(rand * |players|)`; does nothing on an empty roster.
     */
    method PickRandomPlayer(rand: real)
      requires 0.0 <= rand < 1.0
      modifies this`selectedPlayer
      ensures players == [] ==> selectedPlayer == old(selectedPlayer)
      ensures players != [] ==> selectedPlayer == Some(players[Wheel.RandomIndex(rand, |players|)])
      ensures players != [] ==> selectedPlayer.value in players
    {
      if |players| == 0 {
        return;
      }
      selectedPlayer := Some(players[Wheel.RandomIndex(rand, |players|)]);
    }

    /** `addTask`: the typed label, trimmed, joins the task list if it is new and non-empty. */
    method AddTask(input: string)
      modifies this`tasks
      ensures tasks == Roster.AddIfNew(old(tasks), Roster.Trim(input))
      ensures Roster.Distinct(old(tasks)) ==> Roster.Distinct(tasks)
    {
      var task := Roster.Trim(input);
      if task != "" && task !in tasks {
        tasks := tasks + [task];
      }
    }

    /**
     * `deleteTask`: `tasks.splice(index, 1)`. An index in range removes that
     * position and keeps the others in order; the selected task is left as it is.
     */
    method DeleteTask(index: int)
      modifies this`tasks
      ensures var p := Roster.SpliceStart(index, |old(tasks)|);
              tasks == if p < |old(tasks)| then Roster.RemoveAt(old(tasks), p) else old(tasks)
      ensures 0 <= index < |old(tasks)| ==> tasks == old(tasks)[..index] + old(tasks)[index + 1..]
      ensures index >= |old(tasks)| ==> tasks == old(tasks)
      ensures Roster.Distinct(old(tasks)) ==> Roster.Distinct(tasks)
    {
      var p := Roster.SpliceStart(index, |tasks|);
      if p < |tasks| {
        if Roster.Distinct(tasks) {
          Roster.RemoveAtDistinct(tasks, p);
        }
        tasks := Roster.RemoveAt(tasks, p);
      }
    }

    /**
     * `spinWheel`: ignored while a spin runs or when there are no tasks;
     * otherwise starts a spin of `rand * 360 + 720` degrees, `rand` being the
     * value of `Math.random()`.
     */
    method SpinWheel(rand: real)
      requires Valid() && 0.0 <= rand < 1.0
      modifies this`spinning, this`spinAngle, this`wedges
      ensures Valid()
      ensures old(spinning) || tasks == [] ==>
                spinning == old(spinning) && spinAngle == old(spinAngle) && wedges == old(wedges)
      ensures !old(spinning) && tasks != [] ==>
                spinning && spinAngle == Wheel.SpinAngle(rand) && wedges == |tasks|
    {
      if spinning || |tasks| == 0 {
        return;
      }
      spinning := true;
      wedges := |tasks|;
      spinAngle := Wheel.SpinAngle(rand);
    }

    /**
     * One animation frame of a running spin, `elapsed` milliseconds after it
     * started. The wheel is turned to the eased fraction of the spin's total
     * rotation; on the last frame it stands exactly at that total, the task
     * at the settle position of the current list is selected (none if the
     * list has been emptied meanwhile, as `tasks[-1]` is `undefined`) and the
     * spin ends. `Animate` states how that task relates to the drawn wedges.
     */
    method Tick(elapsed: real)
      requires Valid() && spinning
      modifies this`angle, this`selectedTask, this`spinning
      ensures Valid()
      ensures angle == Wheel.EaseOut(Wheel.Progress(elapsed)) * spinAngle
      ensures 0.0 <= elapsed ==> 0.0 <= angle <= spinAngle
      ensures elapsed < Wheel.Duration ==> spinning && selectedTask == old(selectedTask)
      ensures elapsed >= Wheel.Duration ==> !spinning && angle == spinAngle
      ensures elapsed >= Wheel.Duration ==> selectedTask == Lookup(tasks, Wheel.SettleIndex(|tasks|, spinAngle))
      ensures elapsed >= Wheel.Duration && tasks != [] ==> selectedTask.Some? && selectedTask.value in tasks
    {
      var progress := Wheel.Progress(elapsed);
      var turned := Wheel.EaseOut(progress) * spinAngle;
      if 0.0 <= elapsed {
        Wheel.EaseOutBounds(progress);
        Wheel.FractionOf(Wheel.EaseOut(progress), spinAngle);
        assert 0.0 <= turned <= spinAngle;
      }
      angle := turned;
      if progress < 1.0 {
        return;
      }
      var index := Wheel.SettleIndex(|tasks|, angle);
      selectedTask := Lookup(tasks, index);
      spinning := false;
    }

    /**
     * The chain of animation frames of a running spin, each scheduled by the
     * one before until the spin settles: frames are taken from `elapsed` in
     * order and the ones after the settling frame are never delivered. When
     * the list still has as many tasks as the spin draws wedges, the settled
     * task's wedge is the one covering the 0° ray.
     */
    method Animate(elapsed: seq<real>) returns (frames: nat)
      requires Valid() && spinning
      modifies this`angle, this`selectedTask, this`spinning
      ensures Valid()
      ensures var k := Wheel.SettleFrame(elapsed);
              frames == if k < |elapsed| then k + 1 else |elapsed|
      ensures spinning <==> Wheel.SettleFrame(elapsed) == |elapsed|
      ensures !spinning ==> angle == spinAngle && selectedTask == Lookup(tasks, Wheel.SettleIndex(|tasks|, spinAngle))
      ensures spinning ==> selectedTask == old(selectedTask)
      ensures spinning && frames > 0 ==> angle == Wheel.EaseOut(Wheel.Progress(elapsed[frames - 1])) * spinAngle
      ensures frames == 0 ==> angle == old(angle)
      ensures !spinning && |tasks| == wedges ==>
                Wheel.WedgeCovers(wedges, Wheel.Mod360(spinAngle), Wheel.SettleIndex(|tasks|, spinAngle))
    {
      ghost var k := Wheel.SettleFrame(elapsed);
      frames := 0;
      while frames < |elapsed| && spinning
        invariant Valid()
        invariant frames <= |elapsed|
        invariant spinning ==> frames <= k && selectedTask == old(selectedTask)
        invariant frames == 0 ==> angle == old(angle)
        invariant spinning && frames > 0 ==> angle == Wheel.EaseOut(Wheel.Progress(elapsed[frames - 1])) * spinAngle
        invariant !spinning ==> k < |elapsed| && frames == k + 1
        invariant !spinning ==> angle == spinAngle && selectedTask == Lookup(tasks, Wheel.SettleIndex(|tasks|, spinAngle))
      {
        Tick(elapsed[frames]);
        if elapsed[frames] < Wheel.Duration {
          assert frames < k;
        } else {
          assert frames == k;
        }
        frames := frames + 1;
      }
      if !spinning && |tasks| == wedges {
        Wheel.SettleIndexCovers(wedges, spinAngle, Wheel.SettleIndex(|tasks|, spinAngle));
      }
    }

    /**
     * `markTaskComplete`: when both a player and a task are selected (and
     * neither is the empty string), the task is credited to the player.
     */
    method MarkTaskComplete()
      modifies this`scores
      ensures Truthy(selectedPlayer) && Truthy(selectedTask) ==>
                scores == Scoring.Record(old(scores), selectedPlayer.value, selectedTask.value)
      ensures !(Truthy(selectedPlayer) && Truthy(selectedTask)) ==> scores == old(scores)
    {
      if !Truthy(selectedPlayer) || !Truthy(selectedTask) {
        return;
      }
      scores := Scoring.Record(scores, selectedPlayer.value, selectedTask.value);
    }
  }
}
