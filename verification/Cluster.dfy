/** A throwaway cluster owned by a token (scripts/private_cluster.py).

    Docker may refuse, fail or time out at any command, having done all of it or a part; other
    callers' containers come and go, and any container may end by itself.  What a docker
    command has not done when it returns it does not do later. */
module Cluster {
  import opened Wrappers

  /** One sentence of what a stop left behind. */
  datatype Sentence =
    | ContainerSurvived(id: nat)
    | ContainersMayHaveSurvived
    | DirectorySurvived

  datatype Outcome =
    | Refused
    | HandedOver(container: nat)
    | Failed(survived: seq<Sentence>)
    | Interrupted(signum: nat, survived: seq<Sentence>)

  /** 128 random bits in lowercase hex. */
  predicate IsToken(token: string) {
    |token| == 32 && forall c :: c in token ==> '0' <= c <= '9' || 'a' <= c <= 'f'
  }

  /** The machine a start runs on: the daemon's containers with the token each was labelled with
      as it was made, the socket directories by token, and this process's signals. */
  class Machine {
    var containers: set<nat>
    var labels: map<nat, string>
    var directories: set<string>
    var clock: nat

    var holding: bool
    var signals: seq<nat>
    var acted: bool
    /** Signals raised again under the caller's own handlers. */
    var raised: seq<nat>

    /** Containers a `docker rm` of this module was given, those of them it took, and those that
        ended otherwise. */
    ghost var asked: set<nat>
    ghost var taken: set<nat>
    ghost var ended: set<nat>
    /** Docker commands of a stop that failed, and the directories a stop set out to remove. */
    ghost var unanswered: nat
    ghost var swept: set<string>
    /** The directories the filesystem kept when a stop removed them. */
    ghost var stuck: set<string>
    /** The steps of a start that failed. */
    ghost var failures: nat
    /** The signals held when the start last looked. */
    ghost var looked: seq<nat>
    /** Probes docker did not answer, and when the last probe began. */
    ghost var mute: nat
    ghost var probedAt: nat
    /** Steps of a start that began with a signal held: a docker run, a wait. */
    ghost var hasty: nat
    /** Containers whose probe answered that they accept connections, and the directories their
        socket was then found in. */
    ghost var accepting: set<nat>
    ghost var sockets: set<string>

    constructor (containers: set<nat>, labels: map<nat, string>, directories: set<string>)
      requires containers <= labels.Keys
      ensures Valid() && !holding && signals == [] && !acted && raised == [] && clock == 0
      ensures this.containers == containers && this.labels == labels && this.directories == directories
      ensures asked == taken == ended == accepting == {} && swept == sockets == stuck == {} && looked == []
      ensures unanswered == failures == mute == hasty == 0
    {
      this.containers, this.labels, this.directories := containers, labels, directories;
      clock, holding, signals, acted, raised := 0, false, [], false, [];
      asked, taken, ended, unanswered, swept, looked := {}, {}, {}, 0, {}, [];
      accepting, sockets, stuck, failures, mute, hasty, probedAt := {}, {}, {}, 0, 0, 0, 0;
    }

    ghost predicate Valid()
      reads this
    {
      && (forall id :: id in containers ==> id in labels && id !in taken && id !in ended)
      && (forall id :: id in taken || id in ended ==> id in labels)
    }

    predicate Carries(id: nat, token: string)
      reads this
    {
      id in containers && id in labels && labels[id] == token
    }

    /** Labels are for good, an ended container is never back, a container gone has ended or was
        taken, and nothing but the token's own was asked for or taken. */
    twostate predicate OthersLeftAlone(token: string)
      reads this
    {
      && Valid()
      && (forall id :: id in old(labels) ==> id in labels && labels[id] == old(labels)[id])
      && (forall id :: id in containers && id in old(labels) ==> id in old(containers))
      && old(taken) <= taken && old(ended) <= ended && old(asked) <= asked && old(unanswered) <= unanswered
      && (forall id :: id in old(containers) ==> id in containers || id in taken || id in ended)
      && (forall id :: id in taken ==> id in old(taken) || (id in asked && id in labels && labels[id] == token))
      && (forall id :: id in asked ==> id in old(asked) || (id in labels && labels[id] == token))
    }

    /** Nothing was asked of docker's `rm`. */
    twostate predicate NoneTaken()
      reads this
    {
      taken == old(taken) && asked == old(asked) && unanswered == old(unanswered)
    }

    /** No container has come to carry the token. */
    twostate predicate NoneMade(token: string)
      reads this
    {
      forall id :: id in labels && id !in old(labels) ==> labels[id] != token
    }

    /** The signals held only accumulate, and nothing else of the start's own moved. */
    twostate predicate Waited()
      reads this
    {
      && old(signals) <= signals && (!holding ==> signals == old(signals)) && holding == old(holding)
      && acted == old(acted) && raised == old(raised) && looked == old(looked) && old(clock) <= clock
    }

    /** Everything that carries the token is named in these sentences. */
    predicate Named(token: string, survived: seq<Sentence>)
      reads this
    {
      ContainersNamed(token, survived) && (token in directories ==> DirectorySurvived in survived)
    }

    predicate ContainersNamed(token: string, survived: seq<Sentence>)
      reads this
    {
      || ContainersMayHaveSurvived in survived
      || forall id :: id in containers && Carries(id, token) ==> ContainerSurvived(id) in survived
    }

    /** A container ends, by itself or by its own caller; one of another caller's is made. */
    method OthersMove(token: string)
      requires Valid()
      modifies this`containers, this`labels, this`ended
      ensures OthersLeftAlone(token) && NoneMade(token)
    {
      var over: set<nat> := *;
      ended := ended + (over * containers);
      containers := containers - over;
      var made: nat := *;
      var tag: string := *;
      if made !in labels && tag != token {
        labels, containers := labels[made := tag], containers + {made};
      }
    }

    /** What goes on while a docker command runs. */
    method Meanwhile(token: string)
      requires Valid()
      modifies this`containers, this`labels, this`signals, this`clock, this`ended
      ensures OthersLeftAlone(token) && NoneMade(token) && Waited() && NoneTaken()
    {
      var moves: int := *;
      while moves > 0
        invariant OthersLeftAlone(token) && NoneMade(token) && NoneTaken()
        invariant signals == old(signals) && clock == old(clock)
      {
        OthersMove(token);
        moves := moves - 1;
      }
      if holding {
        var arrived: seq<nat> := *;
        signals := signals + arrived;
      }
      var passed: int := *;
      clock := clock + if passed > 0 then passed else 0;
    }

    // -------------------------------------------------------------- stop

    /** docker ps --filter label=...: a daemon that cannot be asked is an error, never an empty answer. */
    method Labelled(token: string) returns (failed: bool, ids: set<nat>)
      requires Valid()
      modifies this`containers, this`labels, this`signals, this`clock, this`ended, this`unanswered
      ensures OthersLeftAlone(token) && NoneMade(token) && Waited() && taken == old(taken) && asked == old(asked)
      ensures unanswered == old(unanswered) + if failed then 1 else 0
      ensures !failed ==> forall id :: id in ids <==> Carries(id, token)
    {
      Meanwhile(token);
      failed := *;
      if failed { unanswered := unanswered + 1; }
      ids := set id | id in containers && Carries(id, token);
    }

    /** docker rm -fv: it may fail, having removed any of them, and removes nothing else. */
    method Remove(token: string, ids: set<nat>) returns (failed: bool)
      requires Valid() && forall id :: id in ids ==> id in labels && labels[id] == token
      modifies this`containers, this`taken, this`asked, this`unanswered
      ensures Valid() && asked == old(asked) + ids
      ensures containers <= old(containers) && old(containers) - containers <= ids
      ensures taken == old(taken) + (old(containers) - containers)
      ensures unanswered == old(unanswered) + if failed then 1 else 0
    {
      var spared: set<nat> := *;
      asked, taken := asked + ids, taken + (ids * containers - spared);
      containers := containers - (ids - spared);
      failed := *;
      if failed { unanswered := unanswered + 1; }
    }

    /** The containers' half of stop(): removed, and asked for again.  Every survivor is named and
        was asked to go, and only a docker command that failed leaves it at "may have". */
    method StopContainers(token: string) returns (survived: seq<Sentence>)
      requires Valid()
      modifies this`containers, this`labels, this`signals, this`clock, this`ended,
               this`unanswered, this`taken, this`asked
      ensures OthersLeftAlone(token) && NoneMade(token) && Waited()
      ensures ContainersMayHaveSurvived in survived <==> unanswered > old(unanswered)
      ensures ContainersMayHaveSurvived !in survived ==>
        forall id :: ContainerSurvived(id) in survived <==> Carries(id, token) && id in asked
      ensures ContainersMayHaveSurvived !in survived ==> forall id :: Carries(id, token) ==> id in asked
      ensures ContainersMayHaveSurvived in survived ==> forall id :: ContainerSurvived(id) !in survived
      ensures DirectorySurvived !in survived
    {
      var failed, made := Labelled(token);
      if failed { return [ContainersMayHaveSurvived]; }
      if made == {} { return []; }
      failed := Remove(token, made);
      if failed { return [ContainersMayHaveSurvived]; }
      var standing: set<nat>;
      failed, standing := Labelled(token);
      if failed { return [ContainersMayHaveSurvived]; }
      survived := NameEach(standing);
    }

    /** shutil.rmtree(ignore_errors=True). */
    method RemoveDirectory(token: string)
      modifies this`directories, this`swept, this`stuck
      ensures directories == old(directories) - (if token in stuck then {} else {token})
      ensures swept == old(swept) + {token}
    {
      swept := swept + {token};
      var kept: bool := *;
      if kept {
        stuck := stuck + {token};
      } else {
        stuck := stuck - {token};
        directories := directories - {token};
      }
    }

    /** stop(): None when the token is refused. */
    method Stop(token: string) returns (remains: Option<seq<Sentence>>)
      requires Valid()
      modifies this`containers, this`labels, this`directories, this`signals, this`clock,
               this`ended, this`unanswered, this`taken, this`asked, this`swept, this`stuck
      ensures OthersLeftAlone(token) && NoneMade(token) && Waited()
      ensures remains.Some? && token in directories ==> token in stuck
      ensures remains.Some? <==> IsToken(token)
      ensures remains.None? ==> NoneTaken() && directories == old(directories) && containers == old(containers)
      ensures directories == old(directories) || directories == old(directories) - {token}
      ensures remains.Some? ==>
        && Named(token, remains.value) && token in swept
        && (ContainersMayHaveSurvived in remains.value <==> unanswered > old(unanswered))
        && (ContainersMayHaveSurvived !in remains.value ==> forall id :: Carries(id, token) ==> id in asked)
        && (forall id :: ContainerSurvived(id) in remains.value ==> Carries(id, token))
        && (DirectorySurvived in remains.value <==> token in directories)
    {
      if !IsToken(token) { return None; }
      var containersLeft := StopContainers(token);
      RemoveDirectory(token);
      var survived := containersLeft + if token in directories then [DirectorySurvived] else [];
      assert forall sentence :: sentence in containersLeft ==> sentence in survived;
      return Some(survived);
    }

    method NameEach(ids: set<nat>) returns (sentences: seq<Sentence>)
      ensures forall s :: s in sentences <==> s.ContainerSurvived? && s.id in ids
    {
      sentences := [];
      var unread := ids;
      while unread != {}
        invariant unread <= ids
        invariant forall s :: s in sentences <==> s.ContainerSurvived? && s.id in ids - unread
        decreases unread
      {
        var id :| id in unread;
        sentences := sentences + [ContainerSurvived(id)];
        unread := unread - {id};
      }
    }

    // -------------------------------------------------------------- the held signals

    method Hold()
      modifies this`holding, this`signals, this`acted, this`looked
      ensures holding && signals == [] && !acted && looked == []
    {
      holding, signals, acted, looked := true, [], false, [];
    }

    /** _HeldSignals.act: whether the start ends here. */
    method Act() returns (interrupt: bool)
      modifies this`acted, this`looked
      ensures looked == signals && interrupt == (signals != []) && acted == (old(acted) || interrupt)
    {
      looked := signals;
      interrupt := |signals| != 0;
      if interrupt { acted := true; }
    }

    /** _HeldSignals.__exit__. */
    method Release(handingOver: bool)
      modifies this`holding, this`raised
      ensures !holding
      ensures raised == old(raised) + if signals != [] && !acted && handingOver then [signals[0]] else []
    {
      holding := false;
      if |signals| != 0 && !acted && handingOver {
        raised := raised + [signals[0]];
      } else {
        assert raised + [] == raised;
      }
    }

    // -------------------------------------------------------------- start

    /** The socket directory, made exclusively: it may be made and its mode then refused. */
    method MakeSocketDirectory(token: string) returns (failed: bool)
      modifies this`directories, this`failures
      ensures !failed ==> token in directories && token !in old(directories)
      ensures old(directories) <= directories <= old(directories) + {token}
      ensures failures == old(failures) + if failed then 1 else 0
    {
      failed := *;
      var made: bool := *;
      if token in directories || !made {
        failed := true;
      } else {
        directories := directories + {token};
      }
      if failed { failures := failures + 1; }
    }

    /** The container as docker makes it. */
    method Attach(token: string, id: nat)
      requires Valid() && id !in labels
      modifies this`containers, this`labels
      ensures Valid() && labels == old(labels)[id := token] && containers == old(containers) + {id}
    {
      labels, containers := labels[id := token], containers + {id};
    }

    /** docker run: labelled as it is created; it may be created and the command fail. */
    method RunContainer(token: string) returns (failed: bool, id: nat)
      requires Valid()
      modifies this`containers, this`labels, this`signals, this`clock, this`ended, this`failures, this`hasty
      ensures OthersLeftAlone(token) && Waited() && NoneTaken()
      ensures !failed ==> Carries(id, token) && id !in old(labels)
      ensures failures == old(failures) + if failed then 1 else 0
      ensures hasty == old(hasty) + if old(signals) != [] then 1 else 0
    {
      if signals != [] { hasty := hasty + 1; }
      Meanwhile(token);
      failed, id := *, *;
      var created: bool := *;
      if !created || id in labels {
        failed, id := true, 0;
      } else {
        Attach(token, id);
      }
      if failed { failures := failures + 1; }
    }

    /** The probe, by the container's id: ready, not yet, or docker did not answer. */
    method Probe(token: string, id: nat) returns (failed: bool, accepts: bool)
      requires Valid()
      modifies this`containers, this`labels, this`signals, this`clock, this`ended, this`accepting, this`mute,
               this`probedAt
      ensures OthersLeftAlone(token) && NoneMade(token) && Waited() && NoneTaken() && probedAt == old(clock)
      ensures accepting == old(accepting) + if !failed && accepts then {id} else {}
      ensures mute == old(mute) + if failed then 1 else 0
    {
      probedAt := clock;
      Meanwhile(token);
      failed, accepts := *, *;
      if failed { mute := mute + 1; }
      if !failed && accepts { accepting := accepting + {id}; }
    }

    /** Whether the socket is on this side of the mount. */
    method LookForTheSocket(token: string) returns (there: bool)
      modifies this`sockets
      ensures sockets == old(sockets) + if there then {token} else {}
    {
      there := *;
      if there { sockets := sockets + {token}; }
    }

    /** Between two probes: a signal may land. */
    method Sleep()
      modifies this`clock, this`signals
      ensures clock == old(clock) + 1 && old(signals) <= signals
    {
      clock := clock + 1;
      var arrived: seq<nat> := *;
      signals := signals + arrived;
    }

    /** The loop of _wait_ready: at least one probe, and after the first none begun more than a sleep
        past the deadline.  It fails only on a probe docker did not answer, or when none was
        accepted by the deadline. */
    method AwaitAnAnswer(token: string, id: nat, seconds: nat) returns (failed: bool, interrupted: bool)
      requires Valid() && holding && !acted
      modifies this`containers, this`labels, this`signals, this`clock, this`ended, this`acted, this`looked,
               this`accepting, this`mute, this`probedAt
      ensures OthersLeftAlone(token) && NoneMade(token) && NoneTaken()
      ensures old(signals) <= signals && holding && acted == interrupted
      ensures interrupted ==> looked == signals != []
      ensures failed ==> looked == old(looked) || looked == []
      ensures !failed && !interrupted ==> looked == [] && id in accepting
      ensures mute == old(mute) || (failed && mute == old(mute) + 1)
      ensures failed && mute == old(mute) ==>
        clock >= old(clock) + seconds && accepting == old(accepting) && looked == signals == []
      ensures mute > old(mute) ==> accepting == old(accepting)
      ensures old(clock) <= probedAt < old(clock) + seconds + 1
    {
      var deadline := clock + seconds;
      failed, interrupted := false, false;
      while true
        invariant OthersLeftAlone(token) && NoneMade(token) && NoneTaken()
        invariant old(signals) <= signals && holding && !acted && !interrupted
        invariant looked == old(looked) || looked == []
        invariant mute == old(mute) && accepting == old(accepting)
        invariant deadline == old(clock) + seconds && old(clock) <= clock <= deadline
        decreases deadline - clock
      {
        var accepts: bool;
        failed, accepts := Probe(token, id);
        if failed { return; }
        interrupted := Act();
        if interrupted || accepts { return; }
        if clock >= deadline { return true, false; }
        Sleep();
      }
    }

    /** The start's last held step, the caller's `hand_over`: it may fail. */
    method HandOver() returns (failed: bool)
      modifies this`failures
      ensures failures == old(failures) + if failed then 1 else 0
    {
      failed := *;
      if failed { failures := failures + 1; }
    }

    /** _wait_ready: an answer, and then the socket on this side of the mount.  It fails on a
        probe docker did not answer, at the deadline, or on an answer that left no socket. */
    method WaitReady(token: string, id: nat, seconds: nat) returns (failed: bool, interrupted: bool)
      requires Valid() && holding && !acted
      modifies this`containers, this`labels, this`signals, this`clock, this`ended, this`acted, this`looked,
               this`accepting, this`sockets, this`failures, this`mute, this`probedAt,
               this`hasty
      ensures OthersLeftAlone(token) && NoneMade(token) && NoneTaken()
      ensures old(signals) <= signals && holding && raised == old(raised) && acted == interrupted
      ensures interrupted ==> looked == signals != []
      ensures failed ==> looked == old(looked) || looked == []
      ensures !failed && !interrupted ==> looked == [] && id in accepting && token in sockets
      ensures failed ==> sockets == old(sockets)
      ensures failed ==> mute > old(mute) || clock >= old(clock) + seconds || id in accepting
      ensures failures == old(failures) + if failed then 1 else 0
      ensures hasty == old(hasty) + if old(signals) != [] then 1 else 0
    {
      if signals != [] { hasty := hasty + 1; }
      failed, interrupted := AwaitAnAnswer(token, id, seconds);
      if !failed && !interrupted {
        var there := LookForTheSocket(token);
        failed := !there;
      }
      if failed { failures := failures + 1; }
    }

    /** The first steps of start()'s try, a look after each: the directory, then the container. */
    method MakeContainer(token: string) returns (failed: bool, interrupted: bool, id: nat)
      requires Valid() && holding && !acted && signals == looked == []
      modifies this`containers, this`labels, this`directories, this`signals, this`clock, this`ended, this`acted,
               this`looked, this`failures, this`hasty
      ensures OthersLeftAlone(token) && NoneTaken()
      ensures old(directories) <= directories <= old(directories) + {token}
      ensures !(failed && interrupted) && acted == interrupted && looked <= signals
      ensures failures == old(failures) + if failed then 1 else 0
      ensures hasty == old(hasty)
      ensures looked != [] <==> interrupted
      ensures !failed && !interrupted ==>
        id in labels && labels[id] == token && id !in old(labels) && token in directories && signals == []
    {
      interrupted, id := false, 0;
      failed := MakeSocketDirectory(token);
      if failed { return; }
      interrupted := Act();
      if interrupted { return; }
      failed, id := RunContainer(token);
      if failed { return; }
      interrupted := Act();
    }

    /** What start() does inside its try: the directory, the container, the wait, the handing over.
        Neither the docker run nor the wait begins with a signal held. */
    method Make(token: string, seconds: nat) returns (failed: bool, interrupted: bool, id: nat)
      requires Valid() && holding && !acted && signals == looked == []
      modifies this
      ensures OthersLeftAlone(token) && NoneTaken() && holding && raised == old(raised)
      ensures old(directories) <= directories <= old(directories) + {token}
      ensures !(failed && interrupted) && acted == interrupted && looked <= signals
      ensures failures == old(failures) + if failed then 1 else 0
      ensures hasty == old(hasty) && stuck == old(stuck)
      ensures looked != [] <==> interrupted
      ensures !failed && !interrupted ==>
        && id in labels && labels[id] == token && id !in old(labels)
        && id in accepting && token in sockets && token in directories
    {
      failed, interrupted, id := MakeContainer(token);
      if failed || interrupted { return; }
      failed, interrupted := WaitReady(token, id, seconds);
      if failed || interrupted { return; }
      failed := HandOver();
    }

    /** What is said of a stop: everything carrying the token named, the survivors asked to go, the
        directory set out for, and "may have survived" exactly when docker did not answer. */
    twostate predicate Accounted(token: string, survived: seq<Sentence>)
      reads this
    {
      && Named(token, survived) && token in swept && (token in directories ==> token in stuck)
      && (ContainersMayHaveSurvived in survived <==> unanswered > old(unanswered))
      && (ContainersMayHaveSurvived !in survived ==> forall id :: Carries(id, token) ==> id in asked)
    }

    /** The except branches: stop, and end by the first signal held, or by the failure. */
    method EndByStopping(token: string, interrupted: bool) returns (o: Outcome)
      requires Valid() && IsToken(token) && holding && (interrupted ==> signals != [])
      modifies this
      ensures OthersLeftAlone(token) && NoneMade(token) && !holding
      ensures directories == old(directories) || directories == old(directories) - {token}
      ensures o.Failed? || o.Interrupted?
      ensures Accounted(token, o.survived)
      ensures o.Interrupted? <==> signals != []
      ensures o.Interrupted? ==> o.signum == signals[0]
      ensures old(signals) <= signals && looked == old(looked) && raised == old(raised) && failures == old(failures)
      ensures hasty == old(hasty)
    {
      var before := signals;
      var survived := Stop(token);
      if |signals| != 0 {
        o := Interrupted(if interrupted then before[0] else signals[0], survived.value);
      } else {
        o := Failed(survived.value);
      }
      Release(false);
    }

    /** Leaving the with block after the cluster was handed over. */
    method EndByHandingOver(id: nat) returns (o: Outcome)
      requires holding && !acted
      modifies this`holding, this`signals, this`raised
      ensures o == HandedOver(id) && !holding && old(signals) <= signals
      ensures raised == old(raised) + if signals == [] then [] else [signals[0]]
    {
      var arrived: seq<nat> := *;
      signals := signals + arrived;
      Release(true);
      return HandedOver(id);
    }

    /** start(): refused at the door on a bad readiness cap, token, path or daemon; else handed
        over and ready, exactly when no step failed and no look found a signal; else everything
        carrying the token removed or named.  A signal held when the start last looked ends it;
        the first one held later is raised again under the caller's handlers at the handing over.
        No docker run and no wait begins with a signal held. */
    method Start(token: string, seconds: Option<nat>, pathFits: bool, mayGoThere: bool) returns (o: Outcome)
      requires Valid()
      modifies this
      ensures OthersLeftAlone(token) && !holding
      ensures old(directories) - {token} <= directories <= old(directories) + {token}
      ensures o.Refused? ==> containers == old(containers) && labels == old(labels)
                             && directories == old(directories) && NoneTaken() && raised == old(raised)
      ensures o.Refused? <==> seconds == None || !IsToken(token) || !pathFits || !mayGoThere
      ensures !o.Refused? ==> (o.HandedOver? <==> failures == old(failures) && looked == [])
      ensures o.HandedOver? ==> && o.container in labels && labels[o.container] == token
                                && o.container !in old(labels) && o.container in accepting && token in sockets
                                && NoneTaken() && token in directories
      ensures o.HandedOver? ==> looked == []
                                && raised == old(raised) + if signals == [] then [] else [signals[0]]
      ensures o.Failed? || o.Interrupted? ==> Accounted(token, o.survived) && raised == old(raised)
      ensures o.Failed? ==> signals == []
      ensures o.Interrupted? ==> signals != [] && o.signum == signals[0]
      ensures !o.Refused? ==> looked <= signals && (looked != [] ==> o.Interrupted?)
      ensures hasty == old(hasty)
    {
      if seconds == None || !IsToken(token) || !pathFits || !mayGoThere {
        holding := false;
        return Refused;
      }
      Hold();
      var failed, interrupted, id := Make(token, seconds.value);
      if !failed && !interrupted {
        o := EndByHandingOver(id);
      } else {
        o := EndByStopping(token, interrupted);
      }
    }
  }
}
