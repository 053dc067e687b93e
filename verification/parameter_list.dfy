/** The table of every tracking parameter with its default value and unit
    (PARAMETER_LIST in projects/mouse_burrows/algorithm/parameters.py). */
module ParameterList {
  import opened Wrappers
  import opened Units

  /** A parameter value. Python integers and floats are both `VNum` with an
      exact rational value; lists of numbers (including the `np.arange`
      defaults, written out element by element) are `VList`. */
  datatype Value =
    | VNone
    | VBool(b: bool)
    | VNum(n: real)
    | VStr(s: string)
    | VList(items: seq<real>)

  /** One entry of the table; the prose description is not modelled. */
  datatype Parameter = Parameter(key: string, defaultValue: Value, unit: Option<Unit>)

  const AllParameters: seq<Parameter> := [
      Parameter("base_folder", VStr("."), Some(Folder)),
      Parameter("factor_length", VNum(1.0), Some(Deprecated)),
      Parameter("use_threads", VBool(true), Some(Boolean)),
      Parameter("video/filename_pattern", VStr("raw_video/*.MTS"), Some(Subfolder)),
      Parameter("video/initial_adaptation_frames", VNum(100.0), Some(TimeFrames)),
      Parameter("video/blur_method", VStr("gaussian"), Some(Str)),
      Parameter("video/blur_radius", VNum(3.0), Some(LengthPixel)),
      Parameter("video/blur_sigma_color", VNum(0.0), Some(Color)),
      Parameter("video/frames", VNone, None),
      Parameter("video/frames_skip", VNum(0.0), Some(TimeFrames)),
      Parameter("video/cropping_rect", VNone, None),
      Parameter("video/remove_water_bottle", VBool(true), Some(Boolean)),
      Parameter("video/water_bottle_template", VStr("water_bottle.png"), None),
      Parameter("video/water_bottle_region", VList([0.8, 1.0, 0.0, 0.3]), None),
      Parameter("logging/enabled", VBool(true), Some(Boolean)),
      Parameter("logging/folder", VStr("logging/"), Some(Subfolder)),
      Parameter("logging/level_stderr", VStr("INFO"), None),
      Parameter("logging/level_file", VStr("INFO"), None),
      Parameter("debug/output", VList([]), None),
      Parameter("debug/use_multiprocessing", VBool(true), Some(Boolean)),
      Parameter("debug/folder", VStr("debug/"), Some(Subfolder)),
      Parameter("debug/window_position", VNone, None),
      Parameter("output/folder", VStr("results/"), Some(Subfolder)),
      Parameter("output/video/folder", VStr("results/"), Some(Subfolder)),
      Parameter("output/output_period", VNum(1.0), Some(TimeFrames)),
      Parameter("output/video/enabled", VBool(true), Some(Boolean)),
      Parameter("output/video/extension", VStr(".mov"), None),
      Parameter("output/video/codec", VStr("libx264"), None),
      Parameter("output/video/bitrate", VStr("2000k"), None),
      Parameter("output/hdf5_compression", VStr("gzip"), None),
      Parameter("output/video/period", VNum(100.0), Some(TimeFrames)),
      Parameter("output/video/mouse_trail_length", VNum(1000.0), Some(TimeFrames)),
      Parameter("cage/width_cm", VNum(85.5), Some(LengthCm)),
      Parameter("cage/determine_boundaries", VBool(true), Some(Boolean)),
      Parameter("cage/restrict_to_largest_patch", VBool(true), Some(Boolean)),
      Parameter("cage/threshold_zscore", VNum(0.5), Some(Factor)),
      Parameter("cage/refine_by_fitting", VBool(true), Some(Boolean)),
      Parameter("cage/boundary_detection_bottom_estimate", VNum(0.95), Some(Fraction)),
      Parameter("cage/boundary_detection_thresholds", VList([0.7, 0.3, 0.7, 0.9]), None),
      Parameter("cage/width_min", VNum(550.0), Some(LengthPixel)),
      Parameter("cage/width_max", VNum(800.0), Some(LengthPixel)),
      Parameter("cage/height_min", VNum(300.0), Some(LengthPixel)),
      Parameter("cage/height_max", VNum(500.0), Some(LengthPixel)),
      Parameter("cage/rectangle_buffer", VNum(5.0), Some(LengthPixel)),
      Parameter("cage/linescan_length", VNum(50.0), Some(LengthPixel)),
      Parameter("cage/linescan_width", VNum(30.0), Some(LengthPixel)),
      Parameter("cage/linescan_smooth", VNum(5.0), Some(LengthPixel)),
      Parameter("colors/adaptation_interval", VNum(1000.0), Some(TimeFrames)),
      Parameter("colors/std_min", VNum(5.0), Some(Color)),
      Parameter("background/adaptation_rate", VNum(0.01), Some(RateFrames)),
      Parameter("explored_area/adaptation_rate_outside", VNum(0.001), Some(RateFrames)),
      Parameter("explored_area/adaptation_rate_burrows", VNum(0.0), Some(RateFrames)),
      Parameter("ground/template", VStr(""), None),
      Parameter("ground/template_width_factors", VList([7.0/10.0, 3.0/4.0, 4.0/5.0, 17.0/20.0, 9.0/10.0, 19.0/20.0, 1.0]), None),
      Parameter("ground/template_aspect_factors", VList([7.0/10.0, 4.0/5.0, 9.0/10.0, 1.0, 11.0/10.0, 6.0/5.0, 13.0/10.0]), None),
      Parameter("ground/template_width_fraction", VNum(0.8), Some(Fraction)),
      Parameter("ground/template_margin", VNum(40.0), Some(LengthPixel)),
      Parameter("ground/point_spacing", VNum(20.0), Some(LengthPixel)),
      Parameter("ground/linescan_length", VNum(50.0), Some(Deprecated)),
      Parameter("ground/slope_detector_max_factor", VNum(0.4), Some(Factor)),
      Parameter("ground/length_max", VNum(1500.0), Some(LengthPixel)),
      Parameter("ground/curvature_energy_factor", VNum(1.0), Some(Deprecated)),
      Parameter("ground/snake_energy_max", VNum(10.0), Some(Deprecated)),
      Parameter("ground/slope_max", VNum(3.0), Some(Fraction)),
      Parameter("ground/frame_margin", VNum(50.0), Some(LengthPixel)),
      Parameter("ground/grabcut_uncertainty_margin", VNum(50.0), Some(LengthPixel)),
      Parameter("ground/active_snake_gamma", VNum(0.1), Some(Factor)),
      Parameter("ground/active_snake_beta", VNum(1000000.0), Some(Factor)),
      Parameter("ground/adaptation_interval", VNum(100.0), Some(TimeFrames)),
      Parameter("ground/ridge_width", VNum(5.0), Some(LengthPixel)),
      Parameter("ground/smoothing_sigma", VNum(1000.0), Some(TimeFrames)),
      Parameter("mouse/intensity_threshold", VNum(1.0), Some(Factor)),
      Parameter("mouse/model_radius", VNum(25.0), Some(LengthPixel)),
      Parameter("mouse/area_max", VNum(5000.0), Some(AreaPixel)),
      Parameter("mouse/area_min", VNum(100.0), Some(AreaPixel)),
      Parameter("mouse/area_mean", VNum(700.0), Some(AreaPixel)),
      Parameter("mouse/speed_max", VNum(30.0), Some(SpeedPixelFrame)),
      Parameter("mouse/max_rel_area_change", VNum(0.5), Some(Factor)),
      Parameter("mouse/speed_smoothing_window", VNum(25.0), Some(Deprecated)),
      Parameter("mouse/moving_threshold_cm_sec", VNum(5.0), Some(SpeedCmSec)),
      Parameter("mouse/moving_threshold_pixel_frame", VNone, Some(Deprecated)),
      Parameter("mouse/activity_smoothing_interval", VNum(18000.0), Some(TimeFrames)),
      Parameter("tracking/weight", VNum(0.5), Some(Factor)),
      Parameter("tracking/moving_window", VNum(200.0), Some(TimeFrames)),
      Parameter("tracking/moving_threshold", VNum(1.0), Some(SpeedPixelFrame)),
      Parameter("tracking/object_count_max", VNum(7.0), Some(Integer)),
      Parameter("tracking/time_scale", VNum(10.0), Some(TimeFrames)),
      Parameter("tracking/tolerated_overlap", VNum(50.0), Some(TimeFrames)),
      Parameter("tracking/initial_score_threshold", VNum(1000.0), Some(Factor)),
      Parameter("tracking/score_threshold_max", VNum(10000000000.0), Some(Factor)),
      Parameter("tracking/end_node_interval", VNum(1000.0), Some(TimeFrames)),
      Parameter("tracking/splitting_duration_min", VNum(10.0), None),
      Parameter("tracking/maximal_gap", VNum(10.0), Some(TimeFrames)),
      Parameter("tracking/maximal_jump", VNum(50.0), Some(LengthPixel)),
      Parameter("tracking/position_smoothing_window", VNum(5.0), Some(TimeFrames)),
      Parameter("tracking/mouse_distance_threshold", VNum(500.0), Some(LengthPixel)),
      Parameter("tracking/mouse_min_mean_speed", VNum(0.5), Some(SpeedPixelFrame)),
      Parameter("tracking/max_track_count", VNum(5000.0), Some(Integer)),
      Parameter("burrows/enabled_pass1", VBool(false), Some(Boolean)),
      Parameter("burrows/enabled_pass3", VBool(true), Some(Boolean)),
      Parameter("burrows/enabled_pass4", VBool(true), Some(Boolean)),
      Parameter("burrows/adaptation_interval", VNum(100.0), Some(TimeFrames)),
      Parameter("burrows/cage_margin", VNum(30.0), Some(LengthPixel)),
      Parameter("burrows/width", VNum(20.0), Some(LengthPixel)),
      Parameter("burrows/width_min", VNum(10.0), Some(LengthPixel)),
      Parameter("burrows/chunk_area_min", VNum(50.0), Some(AreaPixel)),
      Parameter("burrows/area_min", VNum(400.0), Some(AreaPixel)),
      Parameter("burrows/ground_point_distance", VNum(10.0), Some(LengthPixel)),
      Parameter("burrows/shape_threshold_distance", VNum(50.0), Some(LengthPixel)),
      Parameter("burrows/centerline_segment_length", VNum(15.0), Some(LengthPixel)),
      Parameter("burrows/curvature_radius_max", VNum(30.0), Some(LengthPixel)),
      Parameter("burrows/grabcut_burrow_core_area_min", VNum(500.0), Some(AreaPixel)),
      Parameter("burrows/fitting_length_threshold", VNum(100.0), Some(LengthPixel)),
      Parameter("burrows/fitting_width_threshold", VNum(30.0), Some(LengthPixel)),
      Parameter("burrows/fitting_edge_width", VNum(3.0), Some(LengthPixel)),
      Parameter("burrows/fitting_edge_R2min", VNum(-10.0), Some(Factor)),
      Parameter("burrows/outline_simplification_threshold", VNum(0.005), Some(Factor)),
      Parameter("burrows/simplification_threshold_area", VNum(50.0), Some(AreaPixel)),
      Parameter("burrows/chunk_dist_max", VNum(30.0), Some(LengthPixel)),
      Parameter("burrows/image_statistics_window", VNum(50.0), Some(LengthPixel)),
      Parameter("burrows/image_statistics_overlap_threshold", VNum(0.5), Some(Fraction)),
      Parameter("burrows/activity_ignore_interval", VNum(9000.0), Some(TimeFrames)),
      Parameter("burrows/activity_smoothing_interval", VNum(18000.0), Some(TimeFrames)),
      Parameter("analysis/frames", VNone, None),
      Parameter("project/symlink_folder", VNone, None),
      Parameter("resources/notification_email", VStr("dzwicker@seas.harvard.edu"), None),
      Parameter("resources/slurm_partition", VStr("general"), None),
      Parameter("resources/pass1/job_id", VNone, None),
      Parameter("resources/pass1/cores", VNum(3.0), Some(Integer)),
      Parameter("resources/pass1/time", VNum(3000.0), None),
      Parameter("resources/pass1/memory", VNum(1000.0), None),
      Parameter("resources/pass2/job_id", VNone, None),
      Parameter("resources/pass2/cores", VNum(1.0), Some(Integer)),
      Parameter("resources/pass2/time", VNum(1500.0), None),
      Parameter("resources/pass2/memory", VNum(8000.0), None),
      Parameter("resources/pass3/job_id", VNone, None),
      Parameter("resources/pass3/cores", VNum(2.0), Some(Integer)),
      Parameter("resources/pass3/time", VNum(1800.0), None),
      Parameter("resources/pass3/memory", VNum(1000.0), None),
      Parameter("resources/pass4/job_id", VNone, None),
      Parameter("resources/pass4/cores", VNum(2.0), Some(Integer)),
      Parameter("resources/pass4/time", VNum(1500.0), None),
      Parameter("resources/pass4/memory", VNum(2000.0), None)
    ]
}
