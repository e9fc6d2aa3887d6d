/**
 * components/ScrollBlurEffect.tsx: a smooth-scrolling wrapper that hides
 * every section, then reveals it with the three-zone blur as it crosses
 * the viewport.
 *
 * `SmoothScene` holds what the effect writes: the smoother it creates, the
 * section styles, the global trigger registry, and whether a cleanup
 * function was returned to React.
 */
module ScrollBlurEffect {
  import opened ScrollBlurZones

  /** The initial hidden state set on every section is where the formula starts. */
  lemma HiddenIsStartOfFade()
    ensures Hidden == StyleAt(0.0)
  {
    EndsAreHidden();
  }

  class SmoothScene {
    /** `ScrollTrigger`'s global registry: the section indices with a live blur trigger, in creation order. */
    var live: seq<nat>
    var sectionStyles: map<nat, ZoneStyle>
    var smootherCreated: bool
    var smootherKilled: bool
    /** Whether the effect returned its cleanup function. */
    var cleanupInstalled: bool

    constructor()
      ensures live == [] && sectionStyles == map[]
      ensures !smootherCreated && !smootherKilled && !cleanupInstalled
    {
      live := [];
      sectionStyles := map[];
      smootherCreated := false;
      smootherKilled := false;
      cleanupInstalled := false;
    }

    /**
     * The effect body: with both refs attached the smoother is created
     * first; with no sections the effect then returns early, without a
     * cleanup; otherwise each section is hidden and gets a blur trigger.
     */
    method Setup(refsAttached: bool, sectionCount: nat)
      modifies this
      ensures !refsAttached ==> live == old(live) && sectionStyles == old(sectionStyles)
      ensures !refsAttached ==> smootherCreated == old(smootherCreated) && cleanupInstalled == old(cleanupInstalled)
      ensures refsAttached ==> smootherCreated
      ensures refsAttached ==> live == old(live) + seq(sectionCount, i => i)
      ensures refsAttached ==> cleanupInstalled == (sectionCount > 0 || old(cleanupInstalled))
      ensures refsAttached ==> forall i :: 0 <= i < sectionCount ==> i in sectionStyles && sectionStyles[i] == Hidden
      ensures forall k :: k in old(sectionStyles) && (!refsAttached || k >= sectionCount) ==>
        k in sectionStyles && sectionStyles[k] == old(sectionStyles)[k]
      ensures smootherKilled == old(smootherKilled)
    {
      if !refsAttached {
        return;
      }
      smootherCreated := true;
      if sectionCount == 0 {
        return;
      }
      var i := 0;
      while i < sectionCount
        invariant 0 <= i <= sectionCount
        invariant live == old(live) + seq(i, j => j)
        invariant forall j :: 0 <= j < i ==> j in sectionStyles && sectionStyles[j] == Hidden
        invariant forall k :: k in old(sectionStyles) && k >= sectionCount ==>
          k in sectionStyles && sectionStyles[k] == old(sectionStyles)[k]
        invariant smootherCreated && smootherKilled == old(smootherKilled)
        invariant cleanupInstalled == old(cleanupInstalled)
      {
        sectionStyles := sectionStyles[i := Hidden];
        live := live + [i];
        i := i + 1;
      }
      cleanupInstalled := true;
    }

    /** A blur trigger's `onUpdate`. */
    method OnUpdate(index: nat, progress: real)
      modifies this
      ensures sectionStyles == old(sectionStyles)[index := StyleAt(progress)]
      ensures live == old(live) && smootherCreated == old(smootherCreated) && smootherKilled == old(smootherKilled)
      ensures cleanupInstalled == old(cleanupInstalled)
    {
      sectionStyles := sectionStyles[index := StyleAt(progress)];
    }

    /** React runs the cleanup on unmount only if the effect returned one: it kills all triggers and the smoother. */
    method Unmount()
      modifies this
      ensures old(cleanupInstalled) ==> live == [] && smootherKilled == (old(smootherKilled) || old(smootherCreated))
      ensures !old(cleanupInstalled) ==> live == old(live) && smootherKilled == old(smootherKilled)
      ensures sectionStyles == old(sectionStyles) && smootherCreated == old(smootherCreated)
      ensures !cleanupInstalled
    {
      if cleanupInstalled {
        live := [];
        if smootherCreated {
          smootherKilled := true;
        }
      }
      cleanupInstalled := false;
    }
  }

  /** A page without sections keeps its smoother alive after unmount, because no cleanup was installed. */
  method SmootherLeaksWithoutSections() returns (leaked: bool)
    ensures leaked
  {
    var scene := new SmoothScene();
    scene.Setup(true, 0);
    scene.Unmount();
    leaked := scene.smootherCreated && !scene.smootherKilled;
  }

  /** A page with sections cleans up everything it created on unmount. */
  method FullCleanupWithSections(sectionCount: nat) returns (clean: bool)
    requires sectionCount > 0
    ensures clean
  {
    var scene := new SmoothScene();
    scene.Setup(true, sectionCount);
    assert scene.cleanupInstalled;
    scene.Unmount();
    clean := scene.live == [] && scene.smootherKilled;
  }
}
