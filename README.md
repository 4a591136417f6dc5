# Particle detector: rule-based core

A Dafny model of the rule-based part of `ParticleDetector`, which finds
microplastic particles in camera frames. It covers:

- the shape classifier;
- the circularity metric;
- the per-contour filter-and-assemble loop of `detect_particles`;
- the quantification report;
- the bounded particle history that the capture loop appends to.

Image processing is not modelled. Each contour arrives as a record of the
values OpenCV would return for it: area, the moments m00/m10/m01, the point
count, the fitted ellipse, the arc length, the hull area and the mask texture.

Files, one module each:

- `wrappers.dfy`: `Option`, standing for a dictionary key that may or may not be set.
- `shapes.dfy` (`Shapes`): the five shape categories and the ordered classification rule.
- `geometry.dfy` (`Geometry`): circularity, pi, epsilon, and Python's `int()` on a real.
- `detection.dfy` (`Detection`): contour and particle records, the loop as a method, and its specification function `Detect`.
- `quantification.dfy` (`Quantification`): the report, its histograms and statistics.
- `history.dfy` (`History`): `deque(maxlen=n)` as a class over a `seq`, with `Append`.
- `detector.dfy` (`Detector`): the `ParticleDetector` object, its constructor and the capture loop.

Modelling choices:

- Reals stand for the Python floats. `Pi` is 3.141592653589793, the shortest decimal form of `np.pi`; the proofs use only the fact that it is positive.
- The 1e-5 guards are the real constant `Epsilon`.
- `np.sqrt` is a parameter `sqrt` of the detection functions. `FallbackAxesSquareToArea` shows what follows when `sqrt` really is a square root.
- A division by zero inside the loop (smaller ellipse axis or hull area each plus 1e-5 equal to 0) raises in the source. The outer handler then returns the particles already appended. The model has this as the `Failed` outcome, which ends the loop.
- Every assembled record sets `aspect_ratio`, so the default of `get('aspect_ratio', 1.0)` (lines 133 and 195) is never taken and is not modelled.
- The centroid uses Python's `int()`, which truncates toward zero. It is modelled as `Truncate`.
- In the source, the report for an empty list is a smaller dictionary: no roughness histogram, no min/max, no aspect-ratio or circularity means. These keys are absent, not empty, and the model has `details == None` for them.

## Model

| member | source | states |
|---|---|---|
| `Shapes.Classify` | particle_detector.py:164-176 | each of the five labels holds exactly on its region: bead iff circularity > 0.7 and aspect < 1.3; spherical iff circularity > 0.7 and aspect >= 1.3; fiber iff circularity <= 0.7 and aspect > 3; fragment iff circularity <= 0.7 and 1.5 < aspect <= 3; film iff circularity <= 0.7 and aspect <= 1.5 |
| `Shapes.CircularityDominates` | particle_detector.py:166-170 | circularity above 0.7 gives bead or spherical whatever the aspect ratio, and circularity at or below 0.7 never does |
| `Shapes.ClassifyMonotoneInAspectRatio` | particle_detector.py:171-176 | at a fixed circularity a larger aspect ratio never gives a less elongated category (film < fragment < fiber) |
| `Shapes.ClassifyExamples` | particle_detector.py:164-176 | (0.8, 1.1) is bead, (0.8, 2.0) spherical, (0.3, 4.0) fiber, (0.3, 2.0) fragment, (0.3, 1.0) film |
| `Shapes.LabelInjective` | particle_detector.py:168-176 | the five returned label strings are pairwise distinct |
| `Geometry.Circularity` | particle_detector.py:157-162 | 0 for a zero perimeter; never above 1; non-negative for a non-negative area; for a non-zero perimeter, exactly 1 iff perimeter^2 <= 4*pi*area; below the cap it times perimeter^2 equals 4*pi*area |
| `Geometry.Truncate` | particle_detector.py:105-106 | the centroid conversion truncates toward zero: within 1 of its argument, on the side of zero |
| `Detection.Assemble` | particle_detector.py:104-148 | the record keeps area, perimeter and texture. With >= 5 points, major/minor are the ellipse axes (as a multiset), major >= minor, aspect*(minor+eps) = major, and ellipse and angle are present. With fewer, both axes are sqrt(area), aspect is 1, and there is no ellipse or angle. Circularity and shape come from Circularity and Classify, and convexity*(hull+eps) = area |
| `Detection.Raises` | particle_detector.py:117-138 | the record divides by zero exactly when the hull area is -1e-5, or when there are >= 5 points and the smaller ellipse axis (one axis -1e-5, the other not below it) is -1e-5; non-negative measurements never raise |
| `Detection.Examine` | particle_detector.py:93-102 | a contour is kept iff its area is in the window, m00 != 0 and no divisor vanishes. It raises iff it passes both guards and a divisor vanishes. Otherwise it is skipped. A kept contour yields its assembled record |
| `Detection.Detect` | particle_detector.py:92-155 | no more particles than contours; every particle has min <= area <= max, came from a contour with m00 != 0 that does not raise, and is that contour's assembled record |
| `Detection.DetectParticles` | particle_detector.py:92-155 | the loop, with continue on the two guards and an exit on a raising record, returns exactly `Detect` of the contours, so every record satisfies the size window |
| `Detection.DetectIsSubsequence` | particle_detector.py:92-150 | the contours behind the output form an order-preserving subsequence of the input contours |
| `Detection.DetectKeepsPassingContour` | particle_detector.py:92-150 | a contour that passes the filters, with no raising contour before it, has its record in the output |
| `Detection.DetectStopsAtFailure` | particle_detector.py:117-155 | a raising contour ends the loop: the output equals that of the contours before it |
| `Detection.DetectGeometry` | particle_detector.py:117-131 | for a non-negative minimum size every particle has circularity in [0,1]. With >= 5 points it has an ellipse and major >= minor. Otherwise major = minor = sqrt(area) and aspect 1 |
| `Detection.FallbackAxesSquareToArea` | particle_detector.py:124-127 | when `sqrt` is a true square root, the fallback axes multiply to the area and are non-negative |
| `Quantification.Quantify` | particle_detector.py:178-236 | The empty list gives count 0, zero averages and total, empty size and shape maps, and no details. Otherwise: count = n; total = sum of areas; the size, length and width averages are the sums divided by n; each of the four size buckets holds the number of areas in its class, and they sum to n; the shape keys are exactly the observed shapes, each holding its multiplicity, and the values sum to n; the details are `DetailsOf` the list; the three roughness buckets sum to n; min <= mean <= max |
| `Quantification.DetailsOf` | particle_detector.py:211-228 | the aspect-ratio and circularity averages are the sums divided by n; each roughness bucket holds the number of deviations in its class, and they sum to n. Min and max are areas of particles, bound every area, and bracket the mean area |
| `Quantification.DetectedReportBounds` | particle_detector.py:92-236 | for the particles of a frame (non-negative minimum size) the report counts at most one particle per contour; when it is non-empty its mean size lies in the size window, its total area is non-negative and its mean circularity lies in [0,1] |
| `Quantification.StdIntensity` | particle_detector.py:213-215 | the deviation is the texture's standard deviation when there is one; without texture it is 0 and so in the smooth class |
| `Quantification.UntexturedParticleIsSmooth` | particle_detector.py:213-215 | adding a particle without texture adds one to the smooth count and leaves the rough and weathered counts unchanged |
| `Quantification.CountInSizeBucket` | particle_detector.py:200-203 | the count is at most the number of areas, 0 iff no area is in the class, and the number of areas iff every area is |
| `Quantification.SizeCountAppend` | particle_detector.py:200-203 | one more area adds 1 to the count of the class it lies in and 0 to the others, which with the count 0 of no areas fixes every count |
| `Quantification.CountInRoughnessBucket` | particle_detector.py:213-215 | the count is at most the number of deviations, 0 iff no deviation is in the class, and the number of deviations iff every deviation is |
| `Quantification.RoughnessCountAppend` | particle_detector.py:213-215 | one more deviation adds 1 to the count of the class it lies in and 0 to the others |
| `Quantification.SizeDistribution` | particle_detector.py:198-204 | keys are tiny, small, medium and large; each holds the number of areas in its class; the counts add up to the number of areas |
| `Quantification.RoughnessDistribution` | particle_detector.py:211-216 | keys are smooth, rough and weathered; each holds the number of deviations in its class; the counts add up to the number of particles |
| `Quantification.ShapeDistribution` | particle_detector.py:206-209 | a shape is a key iff it occurs; each value is the shape's multiplicity in the list, hence positive; the values add up to the number of particles |
| `Quantification.CountShape` | particle_detector.py:209 | `shapes.count(t)` is the multiplicity of t in the list: at most the length, and 0 iff t does not occur |
| `Quantification.SizeBucketsPartition` | particle_detector.py:199-204 | every area lies in exactly one size bucket |
| `Quantification.RoughnessBucketsPartition` | particle_detector.py:212-216 | every intensity deviation lies in exactly one roughness bucket |
| `Quantification.SizePartition` | particle_detector.py:199-204 | tiny + small + medium + large = number of areas |
| `Quantification.RoughnessPartition` | particle_detector.py:212-216 | smooth + rough + weathered = number of deviations |
| `Quantification.ShapeCountsSum` | particle_detector.py:207-209 | the five shape counts add up to the number of particles |
| `Quantification.ObservedShapes` | particle_detector.py:194-208 | a shape is in the shape list iff some particle has it |
| `Quantification.Sum` | particle_detector.py:226 | `np.sum` of non-negative values is non-negative |
| `Quantification.SumConcat` | particle_detector.py:226 | `np.sum` is additive over concatenation |
| `Quantification.Mean` | particle_detector.py:220-225 | `np.mean` times the number of values is their sum |
| `Quantification.Minimum` | particle_detector.py:227 | the minimum occurs in the list and is <= every element |
| `Quantification.Maximum` | particle_detector.py:228 | the maximum occurs in the list and is >= every element |
| `Quantification.MeanBetween` | particle_detector.py:220-228 | min <= mean <= max for a non-empty list |
| `Quantification.MeanWithin` | particle_detector.py:220-225 | a common lower and upper bound of all values bounds their mean |
| `History.LastN` | particle_detector.py:36 | the result has length min(len, n) and holds the last elements of its argument in order |
| `History.AppendAll` | particle_detector.py:254-258 | repeated `deque.append`: with a non-zero capacity, the last element appended is the newest entry |
| `History.BoundedDeque.constructor` | particle_detector.py:36 | a new history is empty, with the given capacity |
| `History.BoundedDeque.Append` | particle_detector.py:254-258 | after an append the entries are the last `maxLen` of the old entries followed by the new one, so the capacity is kept and the oldest entry is evicted first |
| `History.AppendAllKeepsLast` | particle_detector.py:36 | any sequence of appends leaves exactly the last `maxLen` of everything appended, in append order |
| `History.HistoryAfterOverflow` | particle_detector.py:36 | starting empty, after capacity + k appends the history holds exactly the last capacity entries; the first k were evicted |
| `History.HistoryBounded` | particle_detector.py:36 | after any appends the history holds at most its capacity |
| `Detector.SampleOf` | particle_detector.py:254-258 | a history entry carries the frame's timestamp, its particle list and that list's length |
| `Detector.SamplesExtend` | particle_detector.py:246-258 | one more frame adds its entry at the end of the recorded entries |
| `Detector.ParticleDetector.constructor` | particle_detector.py:18-36 | size window 50..10000, no particles, frame count 0, not running, empty history of capacity 100 |
| `Detector.ParticleDetector.ProcessFrame` | particle_detector.py:252-264 | the frame's particles become current, an entry for them is appended to the history, and the frame count grows by one |
| `Detector.ParticleDetector.CaptureLoop` | particle_detector.py:238-276 | If the camera does not open, nothing changes. Otherwise: the frame count grows by the number of frames read; the current particles are those of the last frame; the history is the last 100 of the old entries followed by one entry per frame; the running flag ends false |

## Left out

- The segmentation pipeline (grey conversion, bilateral filter, CLAHE, adaptive threshold, morphology, `findContours`, lines 66-89): library calls. The model starts from the contour list.
- The OpenCV measurements `contourArea`, `moments`, `arcLength`, `fitEllipse`, `convexHull` and the mask drawing: their results are fields of `Contour`.
- An exception raised inside a foreign call of the loop (`fitEllipse`, `findContours`, `convexHull`, or `np.gradient` on a one-pixel mask, which raises ValueError): foreign code. The model's loop ends early only on the two divisions by zero.
- Texture statistics (`np.mean`, `np.std`, `np.gradient` over the mask): library numerics. The texture is an input, `None` when the mask is empty.
- `std_size`, `median_size` and `percentile_95` of the report: NumPy statistics over floats.
- Floating point in general, including rounding, overflow to infinity and NaN. All measures are exact reals.
- Camera handling (`initialize_camera`, `release_camera`, `cap.read`). Whether the camera opens is a parameter. The frames read before the first failed read are a sequence.
- Threading (`start_capture`, `stop_capture` and the unsynchronised `is_running` flag), and the sleep: concurrency. The model's loop runs until the reads are exhausted.
- The FPS estimate, the last-frame time and the copy of the current frame: wall-clock and image data.
- The history entry's timestamp (`datetime.now()`, line 255): it is the input field `CapturedFrame.timestamp`, and the model assumes nothing about how the timestamps of successive frames are ordered.
- `get_frame_with_annotations` and `FrameEncoder`: drawing and JPEG/base64 encoding.
- `get_current_particles`, `get_quantification` and `get_statistics`: they only return a field or `Quantify` of it.
- An exception in the capture loop outside `detect_particles`: in the model only the FPS division could raise, and that division is not modelled.
- The `print` of the error message in the camera, detection and capture-loop handlers (lines 51, 153 and 273): console output.
- The configuration fields `camera_id`, `blur_kernel` and the two Canny thresholds (lines 19, 31-33): only `camera_id` is used, to open the camera, which is not modelled.
