# ZoomableImageView zoom/pan engine in Dafny

This project models the zoom and pan engine of `ZoomableImageView`, an Android
`View` that shows one bitmap through two matrices:

- the *base* matrix fits the bitmap into the view and centers it;
- the *supplementary* matrix holds the user's zoom and pan.

The matrix that is drawn is the base matrix followed by the supplementary one.
The model covers:

- setting a bitmap, and deferring that until the first layout;
- the fit-and-center base matrix, and the two zoom bounds (`maxZoom`, `zoomDefault`);
- the capped `zoomTo`, unclamped `zoomIn` and snapping `zoomOut`;
- the `center` clamping rule;
- the ease-out fling (`scrollBy`) and the linear timed zoom;
- the paint debounce of `onDraw`;
- the decisions of the gesture callbacks (`onScale`, `onScroll`, `onDoubleTap`, `onFling`, `onTouchEvent`).

Every matrix the view builds is a uniform scale followed by a translation.
Module `Matrix` therefore represents one as `Affine(s, tx, ty)` over `real`.
`PostConcat(m, n)` is Android's `m.postConcat(n)`: apply `m`, then `n`.
`ViewModel.ImageViewMatrix` writes the view's composition of base and supplementary matrix out in closed form, and `ImageViewMatrixComposes` proves it equal to `PostConcat(base, supp)`.

Modules:

- `Matrix`: the transforms.
- `Geometry`: the base matrix, `maxZoom()` and `zoomDefault()`.
- `Centering`: the clamping rule of `center()`.
- `Timing`: the `easeOut` curve, the fling runnable and the timed-zoom runnable. Each is a value, and one run of it is a function of an explicit clock reading `now`.
- `ViewModel`: the view's fields as one record `ViewState`, and one function per operation from the old state to the new one.
- `ViewProperties`: the lemmas about those functions.
- `View`: the class `ZoomableImageView`. Its fields are the Java fields, and its methods update them in place. Every method is proved to take `State()` to the state the matching `ViewModel` function gives, so the lemmas of `ViewProperties` hold of the class.

The pending runnables are explicit fields:

- `zooms`: the posted timed-zoom runnables, which keep no handle and so are never cancelled;
- `flings`: the posted `scrollBy` runnables, each with an id;
- `fling`: the id of the runnable `mFling` refers to, so `removeCallbacks(mFling)` removes exactly that one;
- `refresh`: the due time of the posted `mRefresh`.

Some behaviours are modelled as the code has them, not as one might expect:

- `zoomTo` caps the scale only from above.
- `zoomIn` neither caps nor centers.
- `zoomOut(rate)` always tests undershoot with 1.25, whatever `rate` is.
- `onLayout` does not reset the supplementary matrix.
- `onFling` and `onSingleTapConfirmed` always return false.
- The debounce test is a strict `> 250` ms.
- An unfiltered draw re-posts the refresh 250 ms after the latest draw.
- `maxZoom() >= zoomDefault()` holds only when the larger bitmap/view ratio is at least 1/4 (`MaxZoomCoversDefault`). For a small bitmap, the initial zoom of `setImageBitmap` is capped below `zoomDefault()` (`SmallBitmapCapsDefault`).

## Model

| member | source | states |
|---|---|---|
| Matrix.ScaleAbout | app/src/main/java/com/sean/zoomableimageview/ZoomableImageView.java:350 | `setScale(s, s, px, py)` has scale s and leaves the pivot fixed |
| Matrix.Scaling | app/src/main/java/com/sean/zoomableimageview/ZoomableImageView.java:243 | `setScale(s, s)` has scale s and keeps the origin fixed |
| Matrix.Translation | app/src/main/java/com/sean/zoomableimageview/ZoomableImageView.java:360-362 | the translation `postTranslate` appends: no contract of its own; `PostTranslateMaps` states that it shifts every point by (dx, dy) |
| Matrix.PostConcat | app/src/main/java/com/sean/zoomableimageview/ZoomableImageView.java:250-254 | `postConcat`: no contract of its own; `PostConcatMaps` states that the composition applies m, then n, to every point |
| Matrix.PostScale | app/src/main/java/com/sean/zoomableimageview/ZoomableImageView.java:284 | `postScale(d, d, px, py)` gives scale d·s and translation d·(t − p) + p on each axis |
| Matrix.PostTranslate | app/src/main/java/com/sean/zoomableimageview/ZoomableImageView.java:360-362 | `postTranslate` keeps the scale and adds (dx, dy) to the translation |
| Matrix.PostConcatMaps | app/src/main/java/com/sean/zoomableimageview/ZoomableImageView.java:250-254 | the display matrix maps every point through base, then supp |
| Matrix.PostScaleKeepsPivot | app/src/main/java/com/sean/zoomableimageview/ZoomableImageView.java:284 | a point that the matrix sends to the zoom center stays there after `postScale` about it |
| Matrix.PostConcatTranslate | app/src/main/java/com/sean/zoomableimageview/ZoomableImageView.java:203 | translating supp translates the display matrix by the same amount |
| Matrix.PostConcatScale | app/src/main/java/com/sean/zoomableimageview/ZoomableImageView.java:284 | scaling supp about a point scales the display matrix about the same point |
| Geometry.BaseScaleIsMin | app/src/main/java/com/sean/zoomableimageview/ZoomableImageView.java:235-242 | the base scale is at most 1, vw/bw and vh/bh, and equals one of them, so it is min(1, vw/bw, vh/bh) |
| Geometry.BaseMatrixFits | app/src/main/java/com/sean/zoomableimageview/ZoomableImageView.java:230-247 | the base matrix scales by that minimum; the scaled bitmap fits the view and has equal margins on both sides of each axis |
| Geometry.BaseMatrix | app/src/main/java/com/sean/zoomableimageview/ZoomableImageView.java:230-247 | `setBaseMatrix`: no contract of its own; `BaseMatrixFits` and `BaseMatrixSettled` state its scale, fit and centring |
| Geometry.BaseScale | app/src/main/java/com/sean/zoomableimageview/ZoomableImageView.java:235-242 | the scale `setBaseMatrix` computes: no contract of its own; `BaseScaleIsMin` states it is min(1, vw/bw, vh/bh) |
| Geometry.MaxZoom | app/src/main/java/com/sean/zoomableimageview/ZoomableImageView.java:257-264 | `maxZoom()` is 1 without a bitmap and always positive |
| Geometry.MaxZoomIsLargerRatio | app/src/main/java/com/sean/zoomableimageview/ZoomableImageView.java:261-264 | with a bitmap, `maxZoom()` is the larger of 16·bw/vw and 16·bh/vh |
| Geometry.ZoomDefault | app/src/main/java/com/sean/zoomableimageview/ZoomableImageView.java:267-274 | `zoomDefault()` is at least 1, and exactly 1 without a bitmap |
| Geometry.ZoomDefaultIsFitOrOne | app/src/main/java/com/sean/zoomableimageview/ZoomableImageView.java:271-273 | with a bitmap, `zoomDefault()` is the smaller view/bitmap ratio when that exceeds 1, and 1 otherwise |
| Geometry.MaxZoomCoversDefault | app/src/main/java/com/sean/zoomableimageview/ZoomableImageView.java:257-274 | `maxZoom() >= zoomDefault()` if and only if max(bw/vw, bh/vh) >= 1/4 |
| Geometry.SmallBitmapCapsDefault | app/src/main/java/com/sean/zoomableimageview/ZoomableImageView.java:159-161 | a 10×10 bitmap in a 100×100 view has `maxZoom()` 1.6, below its `zoomDefault()` of 10 |
| Centering.AxisDelta | app/src/main/java/com/sean/zoomableimageview/ZoomableImageView.java:181-200 | after the shift, the axis is settled: centered if smaller than the view, otherwise covering it; an axis already settled gets shift 0; a larger image with a gap at the start is moved so its start is at 0, and one with a gap at the end so its end is at the view's edge |
| Centering.AxisDeltaIsLeast | app/src/main/java/com/sean/zoomableimageview/ZoomableImageView.java:189-199 | for an image at least as large as the view, no shift that settles the axis is smaller than the one applied: the image goes to the nearest edge, it is not recentered |
| Centering.AxisDeltaIdempotent | app/src/main/java/com/sean/zoomableimageview/ZoomableImageView.java:181-200 | a second shift of an axis just settled is 0 |
| Centering.CenterDelta | app/src/main/java/com/sean/zoomableimageview/ZoomableImageView.java:168-203 | the posted translation is, on each chosen axis, that axis's shift for the mapped corners (0, 0) and (bw, bh); it settles them, is 0 on the other axes, and is (0, 0) if they are already settled |
| Centering.BaseMatrixSettled | app/src/main/java/com/sean/zoomableimageview/ZoomableImageView.java:230-247 | the fit-and-center base matrix is settled on both axes |
| Timing.EaseOutEndpoints | app/src/main/java/com/sean/zoomableimageview/ZoomableImageView.java:394-396 | `easeOut` is 0 at time 0 and the full distance at the duration |
| Timing.EaseOut | app/src/main/java/com/sean/zoomableimageview/ZoomableImageView.java:394-396 | `easeOut`: no contract of its own; `EaseOutEndpoints`, `EaseOutMonotone` and `EaseOutBounded` state its shape |
| Timing.EaseOutMonotone | app/src/main/java/com/sean/zoomableimageview/ZoomableImageView.java:394-396 | `easeOut` moves only towards the distance as time grows |
| Timing.EaseOutBounded | app/src/main/java/com/sean/zoomableimageview/ZoomableImageView.java:394-396 | on [0, duration] `easeOut` lies between 0 and the distance |
| Timing.FlingTick | app/src/main/java/com/sean/zoomableimageview/ZoomableImageView.java:374-388 | one run advances old_x and old_y by exactly the translation it posts, changes nothing else in the runnable, and re-posts iff currentMs < durationMs |
| Timing.FlingElapsed | app/src/main/java/com/sean/zoomableimageview/ZoomableImageView.java:377 | currentMs of a scrollBy run, min(durationMs, now − startTime): no contract of its own; `FlingTick` and `FlingMovesTelescope` use it |
| Timing.FlingMovesTelescope | app/src/main/java/com/sean/zoomableimageview/ZoomableImageView.java:376-384 | however the runs are spaced, their translations add up to the ease-out offset at the last run minus the runnable's starting offset |
| Timing.FlingCoversDistance | app/src/main/java/com/sean/zoomableimageview/ZoomableImageView.java:365-391 | a fresh fling whose last run is at or past its duration has moved by exactly (distanceX, distanceY) |
| Timing.NewZoomTask | app/src/main/java/com/sean/zoomableimageview/ZoomableImageView.java:289-292 | the timed-zoom runnable records the current scale, the start time, the duration and the focus, and incrementPerMs·duration = scale − current |
| Timing.ZoomTarget | app/src/main/java/com/sean/zoomableimageview/ZoomableImageView.java:296-299 | the scale one run asks for: no contract of its own; `ZoomTargetInterpolates` and `ZoomTargetMonotone` state it |
| Timing.ZoomElapsed | app/src/main/java/com/sean/zoomableimageview/ZoomableImageView.java:297 | currentMs of a timed-zoom run, min(durationMs, now − startTime): no contract of its own; `ZoomTargetInterpolates` uses it |
| Timing.ZoomTargetInterpolates | app/src/main/java/com/sean/zoomableimageview/ZoomableImageView.java:296-299 | each run asks for current + (scale − current)·t/duration, and exactly `scale` once the duration has passed |
| Timing.ZoomTargetMonotone | app/src/main/java/com/sean/zoomableimageview/ZoomableImageView.java:296-299 | zooming in, later runs ask for scales at least as large, between the start scale and the target |
| ViewModel.InitialWellFormed | app/src/main/java/com/sean/zoomableimageview/ZoomableImageView.java:27-53 | a new view satisfies the state invariant |
| ViewModel.GetScale | app/src/main/java/com/sean/zoomableimageview/ZoomableImageView.java:223-230 | `getScale()` is the scale of supp with a bitmap and 1 without one |
| ViewModel.ViewMaxZoom | app/src/main/java/com/sean/zoomableimageview/ZoomableImageView.java:257-264 | `maxZoom()` for the view's bitmap and size: no contract of its own; `Geometry.MaxZoom` states its bounds |
| ViewModel.ViewZoomDefault | app/src/main/java/com/sean/zoomableimageview/ZoomableImageView.java:267-274 | `zoomDefault()` for the view's bitmap and size: no contract of its own; `Geometry.ZoomDefault` states its bounds |
| ViewModel.MidX | app/src/main/java/com/sean/zoomableimageview/ZoomableImageView.java:312 | `width/2F`, the x of the view's middle: no contract of its own |
| ViewModel.MidY | app/src/main/java/com/sean/zoomableimageview/ZoomableImageView.java:312 | `height/2F`, the y of the view's middle: no contract of its own |
| ViewModel.ImageViewMatrix | app/src/main/java/com/sean/zoomableimageview/ZoomableImageView.java:250-254 | the scale of `getImageViewMatrix()` is the product of the scales of supp and base |
| ViewModel.ImageViewMatrixComposes | app/src/main/java/com/sean/zoomableimageview/ZoomableImageView.java:250-254 | `getImageViewMatrix()` is exactly `mBaseMatrix.postConcat(mSuppMatrix)` |
| ViewModel.Publish | app/src/main/java/com/sean/zoomableimageview/ZoomableImageView.java:123-132 | `setImageMatrix(getImageViewMatrix())` sets mMatrix to base followed by supp and changes nothing else |
| ViewModel.PostTranslateSupp | app/src/main/java/com/sean/zoomableimageview/ZoomableImageView.java:360-362 | `postTranslate` changes only supp, keeps its scale, and adds (dx, dy) to its translation |
| ViewModel.Center | app/src/main/java/com/sean/zoomableimageview/ZoomableImageView.java:164-211 | `center` keeps the scale and changes nothing without a bitmap; with one, it changes only supp and mMatrix, publishes the display matrix shifted by exactly the centering translation, leaves the image settled, and only publishes if the image was already settled |
| ViewModel.CenterIgnoresFlings | app/src/main/java/com/sean/zoomableimageview/ZoomableImageView.java:164-211 | `center` neither reads nor changes the posted scrollBy runnables |
| ViewModel.ZoomTo | app/src/main/java/com/sean/zoomableimageview/ZoomableImageView.java:276-287 | `zoomTo` keeps the invariant, changes only supp and mMatrix, publishes, and with a bitmap reaches scale min(scale, mMaxZoom) with mMatrix equal to the old display matrix scaled about (centerX, centerY) by min(scale, mMaxZoom)/getScale() and then shifted by the centering translation |
| ViewModel.ScaleSupp | app/src/main/java/com/sean/zoomableimageview/ZoomableImageView.java:282-284 | `mSuppMatrix.postScale(k, k, cx, cy)` changes only supp, multiplies its scale by k, and scales the display matrix by k about (cx, cy) |
| ViewModel.ZoomToViewCenter | app/src/main/java/com/sean/zoomableimageview/ZoomableImageView.java:308-313 | `zoomTo(scale)` keeps the invariant, changes only supp and mMatrix, is `zoomTo(scale, width/2, height/2)`, and with a bitmap reaches scale min(scale, mMaxZoom) |
| ViewModel.ZoomToOverTime | app/src/main/java/com/sean/zoomableimageview/ZoomableImageView.java:289-306 | the timed `zoomTo` only appends a new runnable and cancels none |
| ViewModel.RemoveAt | app/src/main/java/com/sean/zoomableimageview/ZoomableImageView.java:294-303 | a runnable that runs leaves the queue: one fewer, the runnables before it in place and those after it moved up by one |
| ViewModel.RunZoomTask | app/src/main/java/com/sean/zoomableimageview/ZoomableImageView.java:295-304 | a run of a timed zoom keeps the invariant; `RunZoomTaskStep` pins it to `zoomTo` about the recorded focus, with or without a bitmap |
| ViewModel.ZoomIn | app/src/main/java/com/sean/zoomableimageview/ZoomableImageView.java:323-336 | `zoomIn` keeps the invariant, changes only supp and mMatrix, and changes nothing without a bitmap; `ZoomInUnclamped` gives the new supp |
| ViewModel.ZoomOut | app/src/main/java/com/sean/zoomableimageview/ZoomableImageView.java:339-357 | `zoomOut` keeps the invariant, changes only supp and mMatrix, and nothing without a bitmap; with one, it reaches the scale of `ZoomOutSupp`, publishes the shrunk display matrix shifted by exactly the centering translation, and leaves the image settled |
| ViewModel.ZoomOutSupp | app/src/main/java/com/sean/zoomableimageview/ZoomableImageView.java:343-352 | the new supp of `zoomOut(rate)` is `setScale(1, 1)` about the middle when s/1.25 < 1, and otherwise has scale s/rate with its distance from the middle divided by rate on each axis (a scale about the middle) |
| ViewModel.ResetForBitmap | app/src/main/java/com/sean/zoomableimageview/ZoomableImageView.java:149-159 | the reset stores the bitmap, rebuilds the base matrix (the identity for none), resets supp to scale 1, publishes, sets mMaxZoom to `maxZoom()`, and changes nothing else |
| ViewModel.BitmapBase | app/src/main/java/com/sean/zoomableimageview/ZoomableImageView.java:149-155 | the base matrix `setImageBitmap` leaves is the identity without a bitmap, and has the base scale with one |
| ViewModel.AdoptBitmap | app/src/main/java/com/sean/zoomableimageview/ZoomableImageView.java:149-155 | storing the bitmap changes only mBitmap and mBaseMatrix, and the new base is the one for that bitmap |
| ViewModel.SetImageBitmap | app/src/main/java/com/sean/zoomableimageview/ZoomableImageView.java:134-162 | before layout only the pending call is stored; after it, only bitmap, matrices and mMaxZoom change |
| ViewModel.LoadBitmap | app/src/main/java/com/sean/zoomableimageview/ZoomableImageView.java:149-161 | once the view has a width, `setImageBitmap` keeps the invariant and changes only the bitmap, the matrices and mMaxZoom |
| ViewModel.Rebase | app/src/main/java/com/sean/zoomableimageview/ZoomableImageView.java:113-116 | the end of `onLayout` changes only the base matrix and mMatrix, and nothing at all without a bitmap |
| ViewModel.OnLayout | app/src/main/java/com/sean/zoomableimageview/ZoomableImageView.java:104-117 | `onLayout` keeps the invariant; `OnLayoutKeepsSupp` and `OnLayoutRunsPendingOnce` state its effect |
| ViewModel.RunPending | app/src/main/java/com/sean/zoomableimageview/ZoomableImageView.java:108-112 | running the pending `setImageBitmap` keeps the invariant, changes nothing when none is pending, and otherwise clears it and installs its bitmap |
| ViewModel.Resize | app/src/main/java/com/sean/zoomableimageview/ZoomableImageView.java:106-107 | recording a positive frame size keeps the invariant and changes only the size |
| ViewModel.ClearPending | app/src/main/java/com/sean/zoomableimageview/ZoomableImageView.java:110 | dropping the pending call keeps the invariant and changes nothing else |
| ViewModel.Clear | app/src/main/java/com/sean/zoomableimageview/ZoomableImageView.java:98-101 | `clear` keeps the invariant, drops the bitmap, and changes nothing else |
| ViewModel.ScrollBy | app/src/main/java/com/sean/zoomableimageview/ZoomableImageView.java:365-391 | `scrollBy` keeps the invariant, appends one fresh runnable for (distanceX, distanceY, durationMs) starting now with no distance covered, makes mFling refer to it, and changes nothing else |
| ViewModel.WithoutTask | app/src/main/java/com/sean/zoomableimageview/ZoomableImageView.java:477 | the queue after `removeCallbacks` holds every runnable with another id as many times as before and none with the given id |
| ViewModel.CancelFling | app/src/main/java/com/sean/zoomableimageview/ZoomableImageView.java:477 | `removeCallbacks(mFling)` keeps the invariant, changes only the fling queue, and changes nothing when mFling is null |
| ViewModel.RunFlingTask | app/src/main/java/com/sean/zoomableimageview/ZoomableImageView.java:374-388 | a run of a fling keeps the invariant, translates supp by the run's ease-out increment and centers, takes the runnable off the queue, and re-posts the advanced runnable iff it is not yet finished |
| ViewModel.OnDraw | app/src/main/java/com/sean/zoomableimageview/ZoomableImageView.java:400-425 | `onDraw` draws nothing iff there is no bitmap or it is recycled, draws filtered iff it is on the software path and more than 250 ms passed, changes only mLastDraw (to now, on a filtered draw) and the refresh (due 250 ms later, on an unfiltered software draw); a filtered draw always records now and an unfiltered software draw always leaves the refresh due 250 ms later |
| ViewModel.RunRefresh | app/src/main/java/com/sean/zoomableimageview/ZoomableImageView.java:80-85 | once the refresh has run, none is pending, and nothing else changes |
| ViewModel.OnScale | app/src/main/java/com/sean/zoomableimageview/ZoomableImageView.java:431-451 | `onScale` returns isInProgress(); it changes nothing when the pinch is not in progress; in progress, it is `zoomTo` to the pinch target about the detector focus, and with a bitmap reaches scale min(target, mMaxZoom) |
| ViewModel.PinchTarget | app/src/main/java/com/sean/zoomableimageview/ZoomableImageView.java:437-439 | the pinch target is at most `maxZoom()` and at most max(scale·factor, 1), and is one of them, so it is min(`maxZoom()`, max(scale·factor, 1)) |
| ViewModel.OnScroll | app/src/main/java/com/sean/zoomableimageview/ZoomableImageView.java:469-484 | `onScroll` keeps the invariant, and returns true iff there is a single pointer and no pinch |
| ViewModel.Pan | app/src/main/java/com/sean/zoomableimageview/ZoomableImageView.java:476-480 | the pan keeps the invariant |
| ViewModel.OnDoubleTap | app/src/main/java/com/sean/zoomableimageview/ZoomableImageView.java:487-498 | `onDoubleTap` keeps the invariant and returns true; `OnDoubleTapCases` gives both branches |
| ViewModel.OnFling | app/src/main/java/com/sean/zoomableimageview/ZoomableImageView.java:501-519 | `onFling` keeps the invariant and returns false |
| ViewModel.DispatchGesture | app/src/main/java/com/sean/zoomableimageview/ZoomableImageView.java:532-533 | delivering a gesture callback keeps the invariant; a scroll is `onScroll`, a fling `onFling`, a double tap `onDoubleTap`, and no callback changes nothing |
| ViewModel.OnTouchEvent | app/src/main/java/com/sean/zoomableimageview/ZoomableImageView.java:523-538 | `onTouchEvent` keeps the invariant and returns true; `TouchWithoutBitmap`, `PinchSuppressesGestures` and `TouchFeedsGestures` give its routing |
| ViewModel.OnSingleTapConfirmed | app/src/main/java/com/sean/zoomableimageview/ZoomableImageView.java:459-466 | the listener is notified iff there is one, and the result is false either way |
| ViewProperties.CenterIdempotent | app/src/main/java/com/sean/zoomableimageview/ZoomableImageView.java:164-211 | a second `center` right after the first changes nothing |
| ViewProperties.BaseNeedsNoCentering | app/src/main/java/com/sean/zoomableimageview/ZoomableImageView.java:164-247 | with the fresh base matrix and supp the identity, `center` posts a zero translation and only publishes |
| ViewProperties.ZoomToReachesCappedScale | app/src/main/java/com/sean/zoomableimageview/ZoomableImageView.java:276-287 | with a bitmap, `zoomTo` reaches scale min(scale, mMaxZoom), keeps the base matrix, publishes base followed by supp, and leaves the image settled |
| ViewProperties.ZoomToAnchorsFocus | app/src/main/java/com/sean/zoomableimageview/ZoomableImageView.java:276-287 | the image point shown at (centerX, centerY) ends up exactly the centering translation away from it, and stays at it when the scaled image needs no centering |
| ViewProperties.ZoomToHasNoFloor | app/src/main/java/com/sean/zoomableimageview/ZoomableImageView.java:277-279 | `zoomTo(0.5, …)` reaches scale 0.5: there is no lower bound |
| ViewProperties.ZoomInUnclamped | app/src/main/java/com/sean/zoomableimageview/ZoomableImageView.java:323-336 | `zoomIn(rate)` multiplies the scale by rate about the middle of the view, with no cap and no centering, and publishes |
| ViewProperties.ZoomOutSnapsToOne | app/src/main/java/com/sean/zoomableimageview/ZoomableImageView.java:339-357 | `zoomOut()` gives s/1.25 when that is at least 1 and exactly 1 otherwise, so never less than 1 |
| ViewProperties.ZoomOutRateIsFixed | app/src/main/java/com/sean/zoomableimageview/ZoomableImageView.java:347-352 | `zoomOut(2)` from scale 1.5 gives 0.75: the undershoot test uses 1.25, not the rate |
| ViewProperties.ZoomWithoutBitmap | app/src/main/java/com/sean/zoomableimageview/ZoomableImageView.java:326-342 | without a bitmap, `zoomIn` and `zoomOut` change nothing |
| ViewProperties.SetImageBitmapDefers | app/src/main/java/com/sean/zoomableimageview/ZoomableImageView.java:140-147 | before layout, `setImageBitmap` only stores the pending call, and the last call wins |
| ViewProperties.SetImageBitmapInitialZoom | app/src/main/java/com/sean/zoomableimageview/ZoomableImageView.java:149-161 | after layout, `setImageBitmap(b)` gives the fit-and-center base matrix, mMaxZoom = `maxZoom()`, scale min(`zoomDefault()`, `maxZoom()`), a published and settled image, and unchanged pending runnables |
| ViewProperties.SetImageBitmapNone | app/src/main/java/com/sean/zoomableimageview/ZoomableImageView.java:149-161 | after layout, `setImageBitmap(null)` leaves every matrix the identity, mMaxZoom 1 and scale 1 |
| ViewProperties.SetImageBitmapSteps | app/src/main/java/com/sean/zoomableimageview/ZoomableImageView.java:149-161 | after layout, `setImageBitmap` is the reset followed by `zoomTo(zoomDefault())` |
| ViewProperties.ZoomToWithoutBitmap | app/src/main/java/com/sean/zoomableimageview/ZoomableImageView.java:276-287 | without a bitmap, `zoomTo` scales supp by the capped scale itself and only publishes |
| ViewProperties.ZoomToOneWithoutBitmap | app/src/main/java/com/sean/zoomableimageview/ZoomableImageView.java:276-287 | without a bitmap and with supp the identity, `zoomTo(1)` only publishes |
| ViewProperties.SetImageBitmapReplaces | app/src/main/java/com/sean/zoomableimageview/ZoomableImageView.java:149-161 | after layout, a second `setImageBitmap` erases every trace of the first |
| ViewProperties.SetImageBitmapRoundTrip | app/src/main/java/com/sean/zoomableimageview/ZoomableImageView.java:134-162 | setting b, then null, then b again gives the same state as setting b once |
| ViewProperties.OnLayoutRunsPendingOnce | app/src/main/java/com/sean/zoomableimageview/ZoomableImageView.java:104-117 | `onLayout` clears the pending call, runs it once at the new size, and rebuilds the base matrix; no call is left pending |
| ViewProperties.OnLayoutKeepsSupp | app/src/main/java/com/sean/zoomableimageview/ZoomableImageView.java:104-117 | with nothing pending, `onLayout` records the new size and changes nothing else but the base matrix and mMatrix (nothing at all without a bitmap); it keeps supp, the bitmap and mMaxZoom, and rebuilds and publishes the base matrix for the new size |
| ViewProperties.ClearResetsScale | app/src/main/java/com/sean/zoomableimageview/ZoomableImageView.java:98-101 | after `clear`, `getScale()` is 1 and `center` does nothing; supp and mMaxZoom stay |
| ViewProperties.TouchWithoutBitmap | app/src/main/java/com/sean/zoomableimageview/ZoomableImageView.java:523-538 | without a bitmap a touch changes nothing and is consumed |
| ViewProperties.PinchSuppressesGestures | app/src/main/java/com/sean/zoomableimageview/ZoomableImageView.java:526-533 | during a pinch the gesture callback is ignored, and only `onScale` acts |
| ViewProperties.TouchFeedsGestures | app/src/main/java/com/sean/zoomableimageview/ZoomableImageView.java:526-533 | with a bitmap and no pinch in progress, the scale detector acts first and the gesture callback then acts on the state it left, and the event is consumed |
| ViewProperties.OnScaleBounded | app/src/main/java/com/sean/zoomableimageview/ZoomableImageView.java:434-442 | while mMaxZoom is still `maxZoom()`, a pinch leaves the scale between min(1, mMaxZoom) and mMaxZoom |
| ViewProperties.OnScrollGuards | app/src/main/java/com/sean/zoomableimageview/ZoomableImageView.java:472-473 | with several pointers or during a pinch, `onScroll` changes nothing and returns false |
| ViewProperties.OnScrollPansWhenZoomed | app/src/main/java/com/sean/zoomableimageview/ZoomableImageView.java:476-480 | a single-pointer scroll cancels mFling, translates by (−dx, −dy) and centers iff the scale exceeds `zoomDefault()`; otherwise nothing changes |
| ViewProperties.CancelFlingRemovesCurrent | app/src/main/java/com/sean/zoomableimageview/ZoomableImageView.java:477 | `removeCallbacks(mFling)` removes exactly the runnable mFling refers to |
| ViewProperties.OnFlingScrollsIff | app/src/main/java/com/sean/zoomableimageview/ZoomableImageView.java:501-519 | `onFling` starts `scrollBy(diffX/2, diffY/2, 300)` exactly when one pointer, no pinch, both events and a speed above 800 on some axis; otherwise nothing changes |
| ViewProperties.OnFlingMovesHalfDistance | app/src/main/java/com/sean/zoomableimageview/ZoomableImageView.java:365-391 | a fast single-pointer fling posts a fresh 300 ms runnable that becomes mFling, and whose runs, the last at least 300 ms later, translate by exactly half the distance between the events |
| ViewProperties.OnDoubleTapCases | app/src/main/java/com/sean/zoomableimageview/ZoomableImageView.java:487-498 | above `zoomDefault()` it zooms back to it at the view's middle; otherwise it is exactly `zoomTo(3·zoomDefault(), x, y, 200)`: the earlier runnables stay, and one more is posted that starts at the current scale at `now`, zooms about the tap over 200 ms and ends at exactly 3·`zoomDefault()` |
| ViewProperties.RunZoomTaskStep | app/src/main/java/com/sean/zoomableimageview/ZoomableImageView.java:295-304 | a run of a timed zoom is `zoomTo(target, centerX, centerY)` on the queue without it, so it zooms about the recorded focus, reaches min(target, mMaxZoom) when there is a bitmap, re-posts itself iff currentMs < durationMs, and changes only supp, mMatrix and the queue |
| ViewProperties.RunFlingTaskStep | app/src/main/java/com/sean/zoomableimageview/ZoomableImageView.java:374-388 | a run of a fling keeps the scale, re-posts itself iff currentMs < durationMs with old_x and old_y advanced to the ease-out offsets reached, translates supp by its increment without a bitmap, and leaves a settled, published image with one |
| ViewProperties.OnDrawDebounce | app/src/main/java/com/sean/zoomableimageview/ZoomableImageView.java:410-423 | on the software path a filtered draw happens iff more than 250 ms passed since the last one, and records the time; otherwise it draws unfiltered and leaves one refresh due 250 ms later |
| ViewProperties.OnDrawHardware | app/src/main/java/com/sean/zoomableimageview/ZoomableImageView.java:407-409 | on a hardware layer the draw is unfiltered and changes nothing |
| ViewProperties.OnDrawBurst | app/src/main/java/com/sean/zoomableimageview/ZoomableImageView.java:410-423 | of two software draws 100 ms apart, the second is filtered if the window has passed, and otherwise leaves the refresh due 250 ms after it |
| View.ZoomableImageView.constructor | app/src/main/java/com/sean/zoomableimageview/ZoomableImageView.java:60-92 | a new view is the initial state: not laid out, no bitmap, identity matrices |
| View.ZoomableImageView.GetScale | app/src/main/java/com/sean/zoomableimageview/ZoomableImageView.java:223-230 | the class's `getScale()` is `ViewModel.GetScale` of its fields |
| View.ZoomableImageView.GetImageViewMatrix | app/src/main/java/com/sean/zoomableimageview/ZoomableImageView.java:250-254 | the class's `getImageViewMatrix()` is base followed by supp of its fields |
| View.ZoomableImageView.SetImageMatrix | app/src/main/java/com/sean/zoomableimageview/ZoomableImageView.java:123-132 | only mMatrix changes, to the given matrix |
| View.ZoomableImageView.PostTranslate | app/src/main/java/com/sean/zoomableimageview/ZoomableImageView.java:360-362 | the fields follow `PostTranslateSupp` |
| View.ZoomableImageView.Center | app/src/main/java/com/sean/zoomableimageview/ZoomableImageView.java:164-211 | the fields follow `ViewModel.Center` |
| View.ZoomableImageView.ZoomTo | app/src/main/java/com/sean/zoomableimageview/ZoomableImageView.java:276-287 | the fields follow `ViewModel.ZoomTo` |
| View.ZoomableImageView.ZoomToViewCenter | app/src/main/java/com/sean/zoomableimageview/ZoomableImageView.java:308-313 | the fields follow `ViewModel.ZoomToViewCenter` |
| View.ZoomableImageView.ZoomToOverTime | app/src/main/java/com/sean/zoomableimageview/ZoomableImageView.java:289-306 | the fields follow `ViewModel.ZoomToOverTime` |
| View.ZoomableImageView.RunZoomTask | app/src/main/java/com/sean/zoomableimageview/ZoomableImageView.java:295-304 | the fields follow `ViewModel.RunZoomTask`, so `RunZoomTaskStep` holds of them |
| View.ZoomableImageView.ZoomIn | app/src/main/java/com/sean/zoomableimageview/ZoomableImageView.java:323-336 | the fields follow `ViewModel.ZoomIn`: only supp and mMatrix change |
| View.ZoomableImageView.ZoomOut | app/src/main/java/com/sean/zoomableimageview/ZoomableImageView.java:339-357 | the fields follow `ViewModel.ZoomOut`: shrink about the middle, publish, center |
| View.ZoomableImageView.ShrinkSupp | app/src/main/java/com/sean/zoomableimageview/ZoomableImageView.java:343-352 | only supp changes, to `ViewModel.ZoomOutSupp`, a scale about the middle |
| View.ZoomableImageView.SetBaseMatrix | app/src/main/java/com/sean/zoomableimageview/ZoomableImageView.java:230-247 | only mBaseMatrix changes, to the fit-and-center matrix |
| View.ZoomableImageView.SetImageBitmap | app/src/main/java/com/sean/zoomableimageview/ZoomableImageView.java:134-162 | the fields follow `ViewModel.SetImageBitmap` |
| View.ZoomableImageView.DeferBitmap | app/src/main/java/com/sean/zoomableimageview/ZoomableImageView.java:140-146 | only the pending `setImageBitmap` call changes |
| View.ZoomableImageView.LoadBitmap | app/src/main/java/com/sean/zoomableimageview/ZoomableImageView.java:149-161 | the fields follow `ViewModel.LoadBitmap` |
| View.ZoomableImageView.ZoomToDefault | app/src/main/java/com/sean/zoomableimageview/ZoomableImageView.java:161 | the fields follow `ViewModel.ZoomToViewCenter` at `zoomDefault()` |
| View.ZoomableImageView.ResetForBitmap | app/src/main/java/com/sean/zoomableimageview/ZoomableImageView.java:149-159 | the fields follow `ViewModel.ResetForBitmap` |
| View.ZoomableImageView.AdoptBitmap | app/src/main/java/com/sean/zoomableimageview/ZoomableImageView.java:149-155 | the fields follow `ViewModel.AdoptBitmap` |
| View.ZoomableImageView.StoreMaxZoom | app/src/main/java/com/sean/zoomableimageview/ZoomableImageView.java:158 | only mMaxZoom changes, to the given value |
| View.ZoomableImageView.OnLayout | app/src/main/java/com/sean/zoomableimageview/ZoomableImageView.java:104-117 | the fields follow `ViewModel.OnLayout` |
| View.ZoomableImageView.SetFrame | app/src/main/java/com/sean/zoomableimageview/ZoomableImageView.java:106-107 | the fields follow `ViewModel.Resize` |
| View.ZoomableImageView.RunPending | app/src/main/java/com/sean/zoomableimageview/ZoomableImageView.java:108-112 | the fields follow `ViewModel.RunPending` |
| View.ZoomableImageView.Rebase | app/src/main/java/com/sean/zoomableimageview/ZoomableImageView.java:113-116 | the fields follow `ViewModel.Rebase` |
| View.ZoomableImageView.Clear | app/src/main/java/com/sean/zoomableimageview/ZoomableImageView.java:98-101 | the fields follow `ViewModel.Clear` |
| View.ZoomableImageView.ScrollBy | app/src/main/java/com/sean/zoomableimageview/ZoomableImageView.java:365-391 | the fields follow `ViewModel.ScrollBy` |
| View.ZoomableImageView.CancelFling | app/src/main/java/com/sean/zoomableimageview/ZoomableImageView.java:477 | the fields follow `ViewModel.CancelFling` |
| View.ZoomableImageView.RunFlingTask | app/src/main/java/com/sean/zoomableimageview/ZoomableImageView.java:374-388 | the fields follow `ViewModel.RunFlingTask` |
| View.ZoomableImageView.OnDraw | app/src/main/java/com/sean/zoomableimageview/ZoomableImageView.java:400-425 | the fields and the kind of draw follow `ViewModel.OnDraw` |
| View.ZoomableImageView.RunRefresh | app/src/main/java/com/sean/zoomableimageview/ZoomableImageView.java:80-85 | the fields follow `ViewModel.RunRefresh` |
| View.ZoomableImageView.OnScale | app/src/main/java/com/sean/zoomableimageview/ZoomableImageView.java:431-451 | the fields and the result follow `ViewModel.OnScale`: `zoomTo` about the focus |
| View.ZoomableImageView.OnScroll | app/src/main/java/com/sean/zoomableimageview/ZoomableImageView.java:469-484 | the fields and the result follow `ViewModel.OnScroll` |
| View.ZoomableImageView.Pan | app/src/main/java/com/sean/zoomableimageview/ZoomableImageView.java:476-480 | the fields follow `ViewModel.Pan` |
| View.ZoomableImageView.OnDoubleTap | app/src/main/java/com/sean/zoomableimageview/ZoomableImageView.java:487-498 | the fields and the result follow `ViewModel.OnDoubleTap`, so `OnDoubleTapCases` holds of them |
| View.ZoomableImageView.OnFling | app/src/main/java/com/sean/zoomableimageview/ZoomableImageView.java:501-519 | the fields and the result follow `ViewModel.OnFling` |
| View.ZoomableImageView.DispatchGesture | app/src/main/java/com/sean/zoomableimageview/ZoomableImageView.java:532-533 | the fields follow `ViewModel.DispatchGesture`: each gesture reaches its own callback |
| View.ZoomableImageView.OnTouchEvent | app/src/main/java/com/sean/zoomableimageview/ZoomableImageView.java:523-538 | the fields and the result follow `ViewModel.OnTouchEvent`, so `PinchSuppressesGestures` and `TouchFeedsGestures` hold of them |

## Left out

- The message queue is not modelled. `post`, `postDelayed` and `removeCallbacks` become explicit fields of posted runnables. `System.currentTimeMillis()` becomes a `now` parameter. A runnable's run is an operation that the environment calls (`RunZoomTask`, `RunFlingTask`, `RunRefresh`).
- `onDraw` reads the clock twice (lines 412 and 414). The model uses one reading `now` for both.
- `invalidate()`, `postInvalidate()` and the drawing itself (`Canvas.drawBitmap`, `Paint`) are not modelled. `onDraw` only reports which kind of draw it makes.
- The API-level and layer-type selection (lines 90-91 and 137-138) becomes a `hardwareLayer` input to `OnDraw`.
- The `TranslateAnimation` of `center` (lines 204-209) is not modelled. The view only ever calls `center` with `animate` false.
- Android's `ScaleGestureDetector` and `GestureDetector` are not modelled. What they report (in-progress flag, scale factor, focus, pointer counts, positions, velocities, and which callback fires) is an input.
- The try/catch blocks are modelled as follows. The `NullPointerException` of `onFling` is the case of a missing event. An `IllegalArgumentException` in `onScale` is not modelled, because nothing the model computes raises one.
- The `detector != null` test of `onScale` is not modelled, because the detector is never null.
- `setImageMatrix` stores null for an identity matrix (lines 124-126). This is the same matrix, so the model stores the matrix itself.
- `getWidth()` and `getHeight()` are identified with `mThisWidth` and `mThisHeight`. Both are set by the same layout pass.
- Floating point is not modelled: `float`, `double` and `long` arithmetic becomes exact `real` and `int`. Every equality about scales holds over exact arithmetic only.
- The unused statics `sPanRate` and `sAnimationDelay`, the scratch fields `mDisplayMatrix` and `mMatrixValues`, `getImageBitmap`, `setOnImageTouchedListener`, and the argument-free `zoomIn()`/`zoomOut()` wrappers are not modelled. `ZoomOutSnapsToOne` states the wrapper's behaviour with rate 1.25.
- `MainActivity.java` and `ShowImageViewActivity.java` are UI plumbing and not part of this model.
- ViewModel.ZoomTo: requires `getScale() != 0`. Java would divide by zero and produce an infinite or NaN scale, which reals cannot express. The callers that reach `zoomTo` inherit this requirement: `ViewModel.RunZoomTask`, `ViewModel.OnScale`, `ViewModel.OnDoubleTap`, `ViewModel.DispatchGesture`, `ViewModel.OnTouchEvent` and the class methods `View.ZoomableImageView.ZoomTo`, `RunZoomTask`, `OnScale`, `OnDoubleTap`, `DispatchGesture` and `OnTouchEvent`.
- ViewModel.ZoomToOverTime: requires a nonzero duration, for the same reason. The same goes for `ScrollBy` and `FlingTick`. The view itself only uses 200 and 300 ms.
- ViewModel.ZoomOut: requires a nonzero `rate`, which it divides by. The view only calls it with 1.25.
- ViewModel.OnLayout: requires a positive frame. After a zero-size layout, `maxZoom()` would divide by zero.
- ViewProperties.OnScaleBounded: assumes mMaxZoom still equals `maxZoom()`. `onScale` caps by `maxZoom()`, but `zoomTo` caps by mMaxZoom, and `onLayout` can change the first without the second.
- OnSingleTapConfirmed: the listener callback is modelled only as a flag saying whether it is notified.
