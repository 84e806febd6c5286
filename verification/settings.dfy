/** The link between the controller and its settings file: the zoom and
    mode commands write their new value into the settings and save them,
    and start-up applies the settings it reads back. */
module Settings {
  import opened Options
  import opened Geometry
  import opened ControllerState
  import opened Commands
  import C = Config
  import RT = ConfigRoundTrip

  /** The live controller agrees with the settings: the zoom is the stored
      zoom as start-up clamps it, and mode and invert flag are the stored
      ones. */
  predicate InSync(s: State, cfg: C.AppConfig) {
    && s.zoom == Clamp(cfg.zoom, MinZoom, MaxZoom)
    && s.mode == cfg.mode
    && s.invertColors == cfg.invertColors
  }

  /** A zoom command: the controller's zoom changes and, when it did, the
      new zoom is written into the settings (which are then saved). */
  function ZoomCommand(s: State, cfg: C.AppConfig, delta: real): (r: (State, C.AppConfig))
    requires Valid(s)
    ensures r.0 == ChangeZoom(s, delta)
    ensures r.0 == s ==> r.1 == cfg
    ensures r.0 != s ==> r.1 == cfg.(zoom := r.0.zoom)
    ensures InSync(s, cfg) ==> InSync(r.0, r.1)
  {
    var s1 := ChangeZoom(s, delta);
    if s1 == s then (s, cfg) else (s1, cfg.(zoom := s1.zoom))
  }

  /** A mode-cycle command: the controller's mode advances and the new mode
      is written into the settings (which are then saved). */
  function ModeCommand(s: State, cfg: C.AppConfig): (r: (State, C.AppConfig))
    ensures r.0 == CycleTrackingMode(s)
    ensures r.1 == cfg.(mode := NextMode(s.mode))
    ensures InSync(s, cfg) ==> InSync(r.0, r.1)
  {
    (CycleTrackingMode(s), cfg.(mode := NextMode(s.mode)))
  }

  /** Start-up from a settings file with contents `file`: the file is read
      over the defaults and its zoom, mode and invert flag are applied to
      the state `t`. */
  function Restart(t: State, file: string, parse: string -> Option<real>): (r: State)
    ensures Valid(r)
  {
    var loaded := C.Startup(Some(file), parse);
    ApplyConfig(t, loaded.zoom, loaded.mode, loaded.invertColors)
  }

  /** Saving the settings and starting again restores the controller's
      zoom, mode and invert flag, whenever the controller agrees with the
      settings, the monitor names can be stored and the zoom text parses
      back. */
  lemma RestartRestores(s: State, cfg: C.AppConfig, t: State, format: real -> string, parse: string -> Option<real>)
    requires InSync(s, cfg)
    requires RT.StorableName(cfg.sourceMonitor) && RT.StorableName(cfg.magnifierMonitor)
    requires RT.ZoomWritable(cfg.zoom, format, parse)
    ensures var r := Restart(t, C.Save(cfg, format), parse);
      r.zoom == s.zoom && r.mode == s.mode && r.invertColors == s.invertColors
  {
    RT.SaveLoadRoundTrip(cfg, C.Defaults, format, parse);
  }

  /** A zoom reached with the zoom commands is saved and applied unchanged
      at the next start. */
  lemma ZoomSurvivesRestart(s: State, cfg: C.AppConfig, delta: real, t: State,
                            format: real -> string, parse: string -> Option<real>)
    requires Valid(s) && InSync(s, cfg)
    requires RT.StorableName(cfg.sourceMonitor) && RT.StorableName(cfg.magnifierMonitor)
    requires RT.ZoomWritable(ZoomCommand(s, cfg, delta).1.zoom, format, parse)
    ensures var (r, saved) := ZoomCommand(s, cfg, delta);
      Restart(t, C.Save(saved, format), parse).zoom == r.zoom
  {
    var (r, saved) := ZoomCommand(s, cfg, delta);
    RestartRestores(r, saved, t, format, parse);
  }

  /** A mode chosen with the mode-cycle command is saved and applied
      unchanged at the next start. */
  lemma ModeSurvivesRestart(s: State, cfg: C.AppConfig, t: State,
                            format: real -> string, parse: string -> Option<real>)
    requires InSync(s, cfg)
    requires RT.StorableName(cfg.sourceMonitor) && RT.StorableName(cfg.magnifierMonitor)
    requires RT.ZoomWritable(cfg.zoom, format, parse)
    ensures Restart(t, C.Save(ModeCommand(s, cfg).1, format), parse).mode == CycleTrackingMode(s).mode
  {
    var (r, saved) := ModeCommand(s, cfg);
    RestartRestores(r, saved, t, format, parse);
  }
}
