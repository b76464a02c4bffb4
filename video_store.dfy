/**
  * The client's video store: the record being processed and the processing
  * state, with one setter per field and a reset. Every action is a call of
  * zustand's `set`, a shallow merge of a partial state into the current one.
  * The store never looks inside the video, transcript, dubbing and render
  * records, so their types are parameters.
  */
module VideoStore {
  import opened Wrappers
  import ProgressTracker

  datatype StoreState<V, T, D, RV> = StoreState(
    currentVideo: Option<V>, currentTranscript: Option<T>, currentDubbing: Option<D>,
    currentRendered: Option<RV>, isProcessing: bool, processingStep: Option<ProgressTracker.Step>,
    progress: real)

  /** The argument of `set`: the keys to overwrite. */
  datatype Partial<V, T, D, RV> = Partial(
    currentVideo: Supplied<Option<V>>, currentTranscript: Supplied<Option<T>>,
    currentDubbing: Supplied<Option<D>>, currentRendered: Supplied<Option<RV>>,
    isProcessing: Supplied<bool>, processingStep: Supplied<Option<ProgressTracker.Step>>,
    progress: Supplied<real>)

  function Initial<V, T, D, RV>(): StoreState<V, T, D, RV>
  {
    StoreState(None, None, None, None, false, None, 0.0)
  }

  function NoKeys<V, T, D, RV>(): Partial<V, T, D, RV>
  {
    Partial(Omitted, Omitted, Omitted, Omitted, Omitted, Omitted, Omitted)
  }

  /** What resetStore passes to `set`: every key, at its initial value. */
  function ResetPartial<V, T, D, RV>(): Partial<V, T, D, RV>
  {
    Partial(Given(None), Given(None), Given(None), Given(None), Given(false), Given(None), Given(0.0))
  }

  function Pick<X>(current: X, s: Supplied<X>): X
  {
    if s.Given? then s.value else current
  }

  /** `set(p)`: the keys `p` gives replace the current ones, the others stay. */
  function Merge<V, T, D, RV>(s: StoreState<V, T, D, RV>, p: Partial<V, T, D, RV>): (m: StoreState<V, T, D, RV>)
    ensures p.currentVideo.Omitted? ==> m.currentVideo == s.currentVideo
    ensures p.currentTranscript.Omitted? ==> m.currentTranscript == s.currentTranscript
    ensures p.currentDubbing.Omitted? ==> m.currentDubbing == s.currentDubbing
    ensures p.currentRendered.Omitted? ==> m.currentRendered == s.currentRendered
    ensures p.isProcessing.Omitted? ==> m.isProcessing == s.isProcessing
    ensures p.processingStep.Omitted? ==> m.processingStep == s.processingStep
    ensures p.progress.Omitted? ==> m.progress == s.progress
    ensures p.currentVideo.Given? ==> m.currentVideo == p.currentVideo.value
    ensures p.currentTranscript.Given? ==> m.currentTranscript == p.currentTranscript.value
    ensures p.currentDubbing.Given? ==> m.currentDubbing == p.currentDubbing.value
    ensures p.currentRendered.Given? ==> m.currentRendered == p.currentRendered.value
    ensures p.isProcessing.Given? ==> m.isProcessing == p.isProcessing.value
    ensures p.processingStep.Given? ==> m.processingStep == p.processingStep.value
    ensures p.progress.Given? ==> m.progress == p.progress.value
  {
    StoreState(Pick(s.currentVideo, p.currentVideo), Pick(s.currentTranscript, p.currentTranscript),
               Pick(s.currentDubbing, p.currentDubbing), Pick(s.currentRendered, p.currentRendered),
               Pick(s.isProcessing, p.isProcessing), Pick(s.processingStep, p.processingStep),
               Pick(s.progress, p.progress))
  }

  /** Two successive `set` calls act as one call with the later keys winning. */
  function Combine<V, T, D, RV>(p: Partial<V, T, D, RV>, q: Partial<V, T, D, RV>): Partial<V, T, D, RV>
  {
    Partial(if q.currentVideo.Given? then q.currentVideo else p.currentVideo,
            if q.currentTranscript.Given? then q.currentTranscript else p.currentTranscript,
            if q.currentDubbing.Given? then q.currentDubbing else p.currentDubbing,
            if q.currentRendered.Given? then q.currentRendered else p.currentRendered,
            if q.isProcessing.Given? then q.isProcessing else p.isProcessing,
            if q.processingStep.Given? then q.processingStep else p.processingStep,
            if q.progress.Given? then q.progress else p.progress)
  }

  lemma MergeCombine<V, T, D, RV>(s: StoreState<V, T, D, RV>, p: Partial<V, T, D, RV>, q: Partial<V, T, D, RV>)
    ensures Merge(Merge(s, p), q) == Merge(s, Combine(p, q))
  {
  }

  /** Each setter's partial changes its own field and no other. */
  lemma SettersChangeOneField<V, T, D, RV>(s: StoreState<V, T, D, RV>, video: Option<V>, transcript: Option<T>,
                                            dubbing: Option<D>, rendered: Option<RV>, step: Option<ProgressTracker.Step>,
                                            progress: real, isProcessing: bool)
    ensures Merge(s, NoKeys().(currentVideo := Given(video))) == s.(currentVideo := video)
    ensures Merge(s, NoKeys().(currentTranscript := Given(transcript))) == s.(currentTranscript := transcript)
    ensures Merge(s, NoKeys().(currentDubbing := Given(dubbing))) == s.(currentDubbing := dubbing)
    ensures Merge(s, NoKeys().(currentRendered := Given(rendered))) == s.(currentRendered := rendered)
    ensures Merge(s, NoKeys().(processingStep := Given(step))) == s.(processingStep := step)
    ensures Merge(s, NoKeys().(progress := Given(progress))) == s.(progress := progress)
    ensures Merge(s, NoKeys().(isProcessing := Given(isProcessing))) == s.(isProcessing := isProcessing)
  {
  }

  /** resetStore restores the initial state from any state, so a second reset changes nothing. */
  lemma ResetRestoresInitial<V, T, D, RV>(s: StoreState<V, T, D, RV>)
    ensures Merge(s, ResetPartial()) == Initial()
    ensures Merge(Merge(s, ResetPartial()), ResetPartial()) == Merge(s, ResetPartial())
  {
  }

  /** setProgress stores its argument as given: nothing keeps it within 0 to 100. */
  lemma ProgressNotClamped<V, T, D, RV>(s: StoreState<V, T, D, RV>)
    ensures Merge(s, NoKeys().(progress := Given(-5.0))).progress == -5.0
    ensures Merge(s, NoKeys().(progress := Given(250.0))).progress == 250.0
  {
  }

  class Store<V, T, D, RV> {
    var currentVideo: Option<V>
    var currentTranscript: Option<T>
    var currentDubbing: Option<D>
    var currentRendered: Option<RV>
    var isProcessing: bool
    var processingStep: Option<ProgressTracker.Step>
    var progress: real

    ghost function State(): StoreState<V, T, D, RV>
      reads this
    {
      StoreState(currentVideo, currentTranscript, currentDubbing, currentRendered,
                 isProcessing, processingStep, progress)
    }

    constructor ()
      ensures State() == Initial()
    {
      currentVideo, currentTranscript, currentDubbing, currentRendered := None, None, None, None;
      isProcessing, processingStep, progress := false, None, 0.0;
    }

    method SetCurrentVideo(video: Option<V>)
      modifies this
      ensures State() == Merge(old(State()), NoKeys().(currentVideo := Given(video)))
    {
      currentVideo := video;
    }

    method SetCurrentTranscript(transcript: Option<T>)
      modifies this
      ensures State() == Merge(old(State()), NoKeys().(currentTranscript := Given(transcript)))
    {
      currentTranscript := transcript;
    }

    method SetCurrentDubbing(dubbing: Option<D>)
      modifies this
      ensures State() == Merge(old(State()), NoKeys().(currentDubbing := Given(dubbing)))
    {
      currentDubbing := dubbing;
    }

    method SetCurrentRendered(rendered: Option<RV>)
      modifies this
      ensures State() == Merge(old(State()), NoKeys().(currentRendered := Given(rendered)))
    {
      currentRendered := rendered;
    }

    method SetProcessingStep(step: Option<ProgressTracker.Step>)
      modifies this
      ensures State() == Merge(old(State()), NoKeys().(processingStep := Given(step)))
    {
      processingStep := step;
    }

    method SetProgress(progress: real)
      modifies this
      ensures State() == Merge(old(State()), NoKeys().(progress := Given(progress)))
    {
      this.progress := progress;
    }

    method SetIsProcessing(isProcessing: bool)
      modifies this
      ensures State() == Merge(old(State()), NoKeys().(isProcessing := Given(isProcessing)))
    {
      this.isProcessing := isProcessing;
    }

    method ResetStore()
      modifies this
      ensures State() == Merge(old(State()), ResetPartial())
      ensures State() == Initial()
    {
      currentVideo, currentTranscript, currentDubbing, currentRendered := None, None, None, None;
      isProcessing, processingStep, progress := false, None, 0.0;
    }
  }
}
