/** Which requests the home streams, told by the shape of their paths. */
module StreamedPaths {
  import opened TunnelMessages
  import opened TunnelHome

  /** `p` is the path up to its first question mark, or all of it. */
  ghost predicate IsCut(path: string, p: string) {
    p <= path && '?' !in p && (p == path || path[|p|] == '?')
  }

  /** The picture of a camera, or something below its `hls` directory. */
  ghost predicate IsOfCamera(p: string, camera: string) {
    && camera != "" && '/' !in camera
    && (p == "/api/cameras/" + camera + "/mjpeg" || "/api/cameras/" + camera + "/hls/" <= p)
  }

  ghost predicate IsCameraPath(path: string) {
    exists p: string, camera: string :: IsCut(path, p) && IsOfCamera(p, camera)
  }

  ghost predicate IsForFrontend(request: Request) {
    "x-tunnel-target" in request.headers && request.headers["x-tunnel-target"] == "frontend"
  }

  lemma {:induction false} BeforeQueryCuts(path: string)
    ensures IsCut(path, BeforeQuery(path))
  {
    if path != "" && path[0] != '?' {
      BeforeQueryCuts(path[1..]);
      assert path == [path[0]] + path[1..];
    }
  }

  lemma OneCut(path: string, p: string, q: string)
    requires IsCut(path, p) && IsCut(path, q)
    ensures p == q
  {
    assert forall i :: 0 <= i < |q| ==> q[i] == path[i] && q[i] in q;
    assert forall i :: 0 <= i < |p| ==> p[i] == path[i] && p[i] in p;
  }

  lemma {:induction false} SegmentEnds(s: string)
    ensures SegmentLength(s) <= |s| && '/' !in s[..SegmentLength(s)]
    ensures SegmentLength(s) < |s| ==> s[SegmentLength(s)] == '/'
  {
    if s != "" && s[0] != '/' {
      SegmentEnds(s[1..]);
      assert s[..SegmentLength(s)] == [s[0]] + s[1..][..SegmentLength(s[1..])];
    }
  }

  lemma {:induction false} WholeSegment(segment: string, rest: string)
    requires '/' !in segment && rest != "" && rest[0] == '/'
    ensures SegmentLength(segment + rest) == |segment|
  {
    if segment == "" {
      assert segment + rest == rest;
    } else {
      WholeSegment(segment[1..], rest);
      assert (segment + rest)[1..] == segment[1..] + rest;
    }
  }

  lemma StreamedHasCamera(path: string)
    requires IsStreamingPath(path)
    ensures IsCameraPath(path)
  {
    hide BeforeQuery, SegmentLength, IsCut;
    var p := BeforeQuery(path);
    BeforeQueryCuts(path);
    var rest := p[|CAMERAS|..];
    var n := SegmentLength(rest);
    SegmentEnds(rest);
    var camera := rest[..n];
    assert p == CAMERAS + rest && rest == camera + rest[n..];
    if "/hls/" <= rest[n..] {
      assert rest[n..] == "/hls/" + rest[n..][|"/hls/"|..];
      assert p == (CAMERAS + camera + "/hls/") + rest[n..][|"/hls/"|..];
    } else {
      assert p == CAMERAS + camera + "/mjpeg";
    }
    assert IsOfCamera(p, camera);
  }

  lemma CameraIsStreamed(path: string, p: string, camera: string)
    requires IsCut(path, p) && IsOfCamera(p, camera)
    ensures IsStreamingPath(path)
  {
    hide BeforeQuery, SegmentLength, IsCut;
    BeforeQueryCuts(path);
    OneCut(path, p, BeforeQuery(path));
    var rest := p[|CAMERAS|..];
    if p == CAMERAS + camera + "/mjpeg" {
      assert p == CAMERAS + (camera + "/mjpeg");
      assert rest == camera + "/mjpeg";
      WholeSegment(camera, "/mjpeg");
    } else {
      var start := CAMERAS + camera + "/hls/";
      var file := p[|start|..];
      assert p == CAMERAS + (camera + ("/hls/" + file));
      assert rest == camera + ("/hls/" + file);
      WholeSegment(camera, "/hls/" + file);
      assert rest[|camera|..] == "/hls/" + file;
    }
  }

  /**
   A request that is not for the frontend is streamed if and only if its path, without the query, is a
   camera's picture or something below a camera's `hls` directory.
   */
  lemma StreamedIff(request: Request)
    ensures IsStreamed(request) <==> !IsForFrontend(request) && IsCameraPath(request.path)
  {
    hide IsStreamingPath, IsCameraPath;
    if IsStreamingPath(request.path) {
      StreamedHasCamera(request.path);
    }
    if IsCameraPath(request.path) {
      HasParts(request.path);
    }
  }

  lemma HasParts(path: string)
    requires IsCameraPath(path)
    ensures IsStreamingPath(path)
  {
    hide IsStreamingPath, IsCut, IsOfCamera;
    var p: string, camera: string :| IsCut(path, p) && IsOfCamera(p, camera);
    CameraIsStreamed(path, p, camera);
  }

  /** Exactly those requests become a streaming job that a cancel can abort; any other becomes a buffered one. */
  lemma RequestStartsJob(h: HomeState, id: Id, request: Request)
    ensures var t := Receive(h, HttpRequest(id, request));
            && t == h.(jobs := t.jobs, activeStreams := t.activeStreams)
            && t.jobs.Keys == h.jobs.Keys + {id} && (forall other <- h.jobs | other != id :: t.jobs[other] == h.jobs[other])
            && (!IsForFrontend(request) && IsCameraPath(request.path) ==>
                  t.jobs[id] == Job(Fetching, false, [], 0) && t.activeStreams == h.activeStreams + {id})
            && (IsForFrontend(request) || !IsCameraPath(request.path) ==>
                  t.jobs[id] == Job(Injecting, false, [], 0) && t.activeStreams == h.activeStreams)
  {
    hide IsStreamed, IsCameraPath;
    StreamedIff(request);
  }
}
