# Verification of the operating-system simulator

This project models the four modules of the simulator (kernel, CPU, memory, file system) and the
wire format they talk through, and proves what they keep over whole runs. It is written in Dafny
4.11; `dafny verify dfyconfig.toml` checks all of it.

Identifiers keep the Spanish of the program. Each part comes in two layers: a specification by
value, about which the run-time properties are proved, and, where the program updates objects, lists
or arrays in place, classes whose methods are proved to do exactly what the specification says.

| part | by value | in place |
|---|---|---|
| file system: bitmap, block file, creation | `Bitmap.dfy`, `FileSystem.dfy` | `Bitmap.dfy`, `FileSystem.dfy` (`ModuloFS`) |
| memory partitions | `Particiones.dfy`, `Solape.dfy` | `MemoryModule.dfy` |
| execution contexts, program files | `Contextos.dfy` | `Contextos.dfy` (`Lista`) |
| threads, joins, mutexes | `Threads.dfy`, `ThreadsInv.dfy`, `ThreadsRun.dfy`, `Efectos.dfy`, `EventosKernel.dfy`, `Planificador.dfy` | `KernelModule.dfy` |
| admission protocol, schedulers | `Admision.dfy`, `EventosAdmision.dfy` | `AdmissionModule.dfy` |
| CPU, instructions, system calls, address translation | `Cpu.dfy`, `Numeros.dfy`, `Instrucciones.dfy`, `Llamadas.dfy`, `Fibo.dfy` | `CpuModule.dfy` |
| private memory of processes | `Aislamiento.dfy`, `EventosMemoria.dfy` | |
| threads that share the CPU | `Intercalado.dfy`, `EventosCpu.dfy` | |
| buffers, messages, packets | `Wire.dfy` | `Wire.dfy` (`Buffer`, `Canal`) |

## As written and repaired

Where the code slips from what its comments and documentation say, the model has a parameter
`v: Variante`. `ComoEsta` is the code as it stands; `Reparada` carries the repair. For these, what is
lost as written is stated exactly, by an if-and-only-if or by a concrete run, and the intended
property is proved for the repaired code. A repair marked "assumed in both variants" is made
throughout, and of the code without it the model says nothing beyond what the row says. Properties
that need no repair are proved of both variants, or of the only version there is.

| as written | repaired | where |
|---|---|---|
| the remainder of a split goes to the end of the list | right after the partition it was cut from | memoria/src/escuchar_kernel.c:122 |
| a merge leaves the old limit | the limit follows the size | memoria/src/escuchar_kernel.c:237, 247 |
| an exact fit answers no; a failed search answers nothing, or dereferences NULL with fixed partitions | yes; no | memoria/src/escuchar_kernel.c:73, 88-107 |
| free partitions start with no pid set | pid 0 (assumed in both variants) | memoria/src/m_conexiones.c:88-110 |
| a join records its caller | its target | kernel/src/kernel_escucha_cpu_dispatch.c:105 |
| the thread woken by an unlock stays in the blocked list | it leaves it | kernel/src/kernel_escucha_cpu_dispatch.c:231-234 |
| the ends of a thread and of a process wait for an answer that the memory module never sends | they go on (assumed in both variants) | kernel/src/k_conexiones.c:364, 493; memoria/src/escuchar_kernel.c:188-214, 290-317 |
| the end of a process holds the semaphore of the lists, for which each thread's end waits | it does not (assumed in both variants) | kernel/src/k_conexiones.c:379, 434 |
| the end of a process asks for space for the head of NEW without the planner's token | it does not ask (assumed in both variants; `IniciarDeMasAdelanta` says exactly when that goes wrong, `IniciarDeMasEntrada` gives the input) | kernel/src/k_conexiones.c:406 |
| a finished thread stays in the ready, blocked or executing list and in mutex queues | it leaves them (assumed in both variants of `Threads`; `Admision` leaves the other threads of an ended process where they are) | kernel/src/k_conexiones.c:427-486 |
| the waiter woken by the end of a mutex's owner stays in the blocked list | it leaves it (assumed in both variants) | kernel/src/k_conexiones.c:461-468 |
| the confirmation of a thread enters the short-term scheduler, which never returns | it only posts the semaphore (assumed in both variants) | kernel/src/kernel_escucha_memoria.c:61-62 |
| the end of a thread takes a queued number for a pointer | it looks the number up (assumed in both variants) | kernel/src/k_conexiones.c:462 |
| a system call leaves its caller in the executing queue | the caller leaves it, and goes back to ready unless it blocks or ends (assumed in both variants) | kernel/src/kernel_escucha_cpu_dispatch.c:224 |
| a finished control block is freed | it is kept, with state EXIT (assumed in both variants) | kernel/src/k_conexiones.c:443, 484 |
| the planner's turn with an empty NEW reads an uninitialised process | the turn waits for NEW (assumed in both variants) | kernel/src/k_conexiones.c:302-310 |
| JNZ does not test its register and writes through an integer | it tests it and sets the PC | cpu/src/c_conexiones.c:215-221 |
| THREAD_EXIT, PROCESS_EXIT, DUMP_MEMORY and THREAD_CANCEL are not decoded as system calls | they are | cpu/src/ciclo_de_instruccion.c:82-111 |
| a context's limit is an absolute address, added to the base | it is the size, and the whole word has to fit | memoria/src/escuchar_kernel.c:268 |
| READ_MEM's reply is read by two threads | the CPU gets the word (assumed in both variants) | cpu/src/c_conexiones.c:169 |
| the file system reads an operation code, and then another in `recibir_paquete` (`DobleLectura`) | it reads one (assumed in the file system's part) | filesystem/src/escuchar_memoria.c:7, 36 |
| the buffer cursor is not set on creation nor on receipt | it starts at 0 (assumed in both variants) | utils/src/utils/serializar.c:10-14, 333-340 |

Kept as written, with what follows from it: THREAD_CANCEL finishes its caller (`CancelSii`), and the
misspelt TRHEAD_CANCEL stops its thread with nothing sent (`MalEscritaCalla`);
THREAD_CREATE advances the thread counter twice, so threads are numbered 0, 1, 3, 5... while
`PLANI_PROC` joins thread 4 (`NumerosSiempre`); the end of a process sets its counter to -1 and does
not keep its other threads from running, so that one of them that creates a thread gives it the main
thread's number and brings the memory module down (`HilosUnaVez`, `MemoriaCaeSii`); a token of the
short-term scheduler comes only with a creation, so that a thread back in READY may wait for ever
(`SinFichasNadieCorre`, `EsperaSinFicha`); the memory module refuses the last word of the memory
(`EscribirLeer`, `FiboLlega`); a file of no bytes takes every block (`ReservarBloques`,
`CuentaExacta`); the last byte of the bitmap has bits for blocks that do not exist (`EnDiscoSi`).

## Assumptions

- The file system's configuration is usable: at least one block of at least one byte, and every
  block within reach of a 32-bit offset. The contents sent with a creation have at least the size
  asked for.
- A memory has less than 2^31 bytes, since `tamanio_memoria` is an `int`. Process and thread numbers
  do not wrap round.
- Each message handler is one atomic step, and channels are FIFO.
- Programs have one instruction a line. A number too large for `atoi` wraps round.

## Model

| member | source | states |
|---|---|---|
| `Bitmap.OcupadoEs` | filesystem/src/escuchar_memoria.c:115-119 | The shifted form of the bit test agrees with the C mask `byte & (1 << i)`, for every byte and bit |
| `Bitmap.MarcarBit` | filesystem/src/escuchar_memoria.c:116-119 | Setting bit i of a byte changes that bit and no other |
| `Bitmap.MarcarByte` | filesystem/src/escuchar_memoria.c:101-142 | Writing one byte back with one more bit changes exactly block 8*o+i of the bitmap |
| `Bitmap.CantidadBloquesLibres` | filesystem/src/escuchar_memoria.c:66-79 | The nested byte/bit scan returns the number of free blocks |
| `Bitmap.MarcarOcupado` | filesystem/src/escuchar_memoria.c:115-119 | One turn of the scan: takes a free block and writes its byte back, leaves a taken one |
| `Bitmap.ReservarBloques` | filesystem/src/escuchar_memoria.c:101-142 | For any bitmap and any n: with 1 <= n <= free, exactly the n lowest free blocks are taken and the lowest is returned; asked for none or for too many, every block is taken and (uint32_t)-1 is returned |
| `Bitmap.ReservarDescuenta` | filesystem/src/escuchar_memoria.c:66-142 | A reservation of n lowers the free count by exactly n |
| `Bitmap.ReservaContigua` | filesystem/src/escuchar_memoria.c:101-172 | The blocks reserved are the n consecutive ones from the first if and only if all of those were free |
| `FileSystem.BloquesNecesariosEs` | filesystem/src/escuchar_memoria.c:44 | The 32-bit ceiling division is right up to 2^32 - block_size, and gives 0 exactly for size 0 and beyond that limit |
| `FileSystem.ReservarPrefijo` | filesystem/src/escuchar_memoria.c:101-142 | While the used blocks form a prefix, a reservation starts at its end and extends it by n |
| `FileSystem.CrearConserva` | filesystem/src/escuchar_memoria.c:34-64 | Every creation keeps the invariant: used blocks form a prefix, files lie one after another from block 0 and read back |
| `FileSystem.EjecutarConserva` | filesystem/src/escuchar_memoria.c:34-172 | The invariant holds after any sequence of creations from the formatted disk |
| `FileSystem.ArchivosPerduran` | filesystem/src/escuchar_memoria.c:34-172 | After any further creations every file still reads back from its first block exactly as written |
| `FileSystem.ArchivosDisjuntos` | filesystem/src/escuchar_memoria.c:34-172 | No two files share a block, and the blocks of every file are marked in use |
| `FileSystem.CrearGuardaSi` | filesystem/src/escuchar_memoria.c:34-64 | A request is stored if and only if it has at least one byte, does not overflow and fits the free blocks; then it reads back |
| `FileSystem.CuentaExacta` | filesystem/src/escuchar_memoria.c:34-142 | The blocks in use are exactly those of the files if and only if no request rounded to zero blocks or the files fill the disk |
| `FileSystem.EnDiscoSi` | filesystem/src/filesystem.c:36-82 | Files never spill past the configured disk, over all runs, if and only if the block count is a multiple of eight |
| `FileSystem.BloqueFantasma` | filesystem/src/filesystem.c:36-82 | With any other block count, two requests that put a file on a block the disk does not have |
| `FileSystem.HuecoRompe` | filesystem/src/escuchar_memoria.c:121-166 | On a bitmap with a hole, writing contiguously destroys the file in the hole: the prefix is needed |
| `FileSystem.ModuloFS.constructor` | filesystem/src/filesystem.c:36-104 | Formatting leaves a zero bitmap and a block file of full size |
| `FileSystem.ModuloFS.EspacioDisponible` | filesystem/src/escuchar_memoria.c:81-99 | Whether at least that many blocks are free |
| `FileSystem.ModuloFS.EscribirContenidoBloques` | filesystem/src/escuchar_memoria.c:144-172 | As many writes as blocks, none empty, none longer than a block, adding up to the whole size; the contents are copied in order and no other byte changes |
| `FileSystem.ModuloFS.CrearArchivo` | filesystem/src/escuchar_memoria.c:34-64 | The handler over the bitmap and block files does what the step of the runs above does |
| `Particiones.Elegir` | memoria/src/escuchar_kernel.c:146-184 | A search fails exactly when nothing among the partitions looked at fits; otherwise what it picks fits |
| `Particiones.ElegirEs` | memoria/src/escuchar_kernel.c:146-184 | First fit picks the first that fits; best and worst fit the earliest of the smallest and of the largest |
| `Particiones.SobranteOrdenado` | memoria/src/escuchar_kernel.c:146-184 | The three searches all fail, exactly when nothing fits, or all succeed with leftover best <= first <= worst |
| `Particiones.AsignarConserva` | memoria/src/escuchar_kernel.c:84-125 | An assignment keeps the list tiling the memory with right limits and free space merged (repaired) |
| `Particiones.FinalizarConserva` | memoria/src/escuchar_kernel.c:188-252 | The end of a process keeps it (repaired) |
| `Particiones.EjecutarConserva` | memoria/src/escuchar_kernel.c:84-252 | Over every run the partitions tile the memory, limits are base+size-1 and no two neighbours are free (repaired) |
| `Particiones.AsignarEntrega` | memoria/src/escuchar_kernel.c:61-107 | A request puts exactly one more partition in use, or none, in either variant and scheme |
| `Particiones.FinalizarDevuelve` | memoria/src/escuchar_kernel.c:188-214 | A process that ends gives back one partition of its own; every other one in use is untouched, in either variant |
| `Particiones.AsignarVivos` | memoria/src/escuchar_kernel.c:61-107 | A request by a new process adds it to the holders exactly when something fits, and touches no other holder |
| `Particiones.FinalizarVivos` | memoria/src/escuchar_kernel.c:188-214 | The end of a process removes exactly it from the holders |
| `Particiones.NadieSiiInicial` | memoria/src/escuchar_kernel.c:230-252 | Nobody holds a partition if and only if the list is the single initial one |
| `Particiones.AlTerminarTodos` | memoria/src/escuchar_kernel.c:188-252 | After ending any processes in any order the list is the initial one if and only if every holder was among them |
| `Particiones.FijarEs` | memoria/src/m_conexiones.c:75-116 | The configured fixed partitions lie one after another with right limits |
| `Particiones.FijasPermanecen` | memoria/src/escuchar_kernel.c:61-82 | With fixed partitions no run moves or resizes any: they tile the configured memory for ever |
| `Particiones.SumaConstante` | memoria/src/escuchar_kernel.c:109-125 | The total size is constant over every run, even with the remainder at the list end (as written) |
| `Particiones.DividirComoEstaSii` | memoria/src/escuchar_kernel.c:109-125 | As written, a split keeps the list in memory order if and only if it cuts the last partition |
| `Particiones.UnirComoEstaSii` | memoria/src/escuchar_kernel.c:236-250 | As written, a merge leaves a right limit if and only if it adds no space |
| `Particiones.RespuestaVerazSii` | memoria/src/escuchar_kernel.c:84-107 | As written, the answer tells what happened if and only if the partition found is larger than asked for |
| `Particiones.RespuestaSii` | memoria/src/escuchar_kernel.c:61-107 | Exactly when a request is answered yes, answered no, left unanswered, or brings the module down on NULL, in each variant and scheme |
| `Particiones.ComoEstaSolapa` | memoria/src/escuchar_kernel.c:84-252 | The input: as written, a run of the dynamic scheme with one merge of separate partitions, after which two live processes hold overlapping bytes, both confirmed |
| `Solape.UnirSii` | memoria/src/escuchar_kernel.c:236-250 | As written, for any list in any order that shares the memory out byte by byte, a merge leaves partitions byte-disjoint and inside the memory if and only if the second starts where the first ends, or is empty |
| `Solape.DividirReparto` | memoria/src/escuchar_kernel.c:109-125 | As written, a split keeps the memory shared out byte by byte, wherever the remainder is listed |
| `Solape.AsignarReparto` | memoria/src/escuchar_kernel.c:84-107 | As written, a whole request keeps it, whichever search |
| `Solape.ConsolidarSii` | memoria/src/escuchar_kernel.c:230-252 | As written, for any list in any order that shares the memory out, the merges at the end of a process leave it shared out again if and only if what they join is one stretch of bytes: freed and next after the previous one, in either order, empty ones aside |
| `Solape.NuncaRozaSii` | memoria/src/escuchar_kernel.c:84-252 | As written, in none of the states between the handlers of a run of the dynamic scheme do two partitions share a byte or one leave the memory if and only if whatever each end of a process joins is one stretch of bytes; then the memory stays shared out byte by byte |
| `Solape.VivosNoSeSolapan` | memoria/src/escuchar_kernel.c:84-252 | Over every such run no byte belongs to two partitions |
| `MemoryModule.Memoria.Dinamica` | memoria/src/m_conexiones.c:75-116 | The dynamic scheme starts with one partition of the whole memory |
| `MemoryModule.Memoria.Fija` | memoria/src/m_conexiones.c:75-116 | The fixed scheme accumulates the start of each configured partition |
| `MemoryModule.Memoria.AlgoritmoFirstFit` | memoria/src/escuchar_kernel.c:146-156 | The index loop finds what the search rule says |
| `MemoryModule.Memoria.AlgoritmoBestFit` | memoria/src/escuchar_kernel.c:158-170 | The index loop finds what the search rule says |
| `MemoryModule.Memoria.AlgoritmoWorstFit` | memoria/src/escuchar_kernel.c:172-184 | The index loop finds what the search rule says |
| `MemoryModule.Memoria.EvaluarParticion` | memoria/src/escuchar_kernel.c:127-144 | Runs the configured search |
| `MemoryModule.Memoria.DividirParticion` | memoria/src/escuchar_kernel.c:109-125 | Cuts a record down in place and lists the remainder where the variant puts it |
| `MemoryModule.Memoria.AsignarMemoria` | memoria/src/escuchar_kernel.c:61-107 | The whole request, with its reply, on the records in place |
| `MemoryModule.Memoria.ConsolidarParticionesLibres` | memoria/src/escuchar_kernel.c:230-252 | Merges with the next and then the previous free record in place |
| `MemoryModule.Memoria.FinalizarProceso` | memoria/src/escuchar_kernel.c:188-214 | Frees the first record with the pid and merges; says whether there was one |
| `MemoryModule.Memoria.BuscarParticionPorPid` | memoria/src/escuchar_kernel.c:216-227 | The first record with the pid, or NULL |
| `Planificador.Menor` | kernel/src/k_conexiones.c:156-175 | The scan finds the lowest priority number, and the earliest thread that has it |
| `Planificador.SacarElegido` | kernel/src/k_conexiones.c:156-182 | Removing the chosen thread removes the first of its priority and no other |
| `Planificador.VaciarOrdena` | kernel/src/k_conexiones.c:156-182 | Draining the ready list is a stable sort by priority: a permutation, in order, equal priorities in arrival order |
| `Planificador.OrdenEstableUnico` | kernel/src/k_conexiones.c:156-182 | There is only one such order |
| `ThreadsInv.LockConserva` | kernel/src/kernel_escucha_cpu_dispatch.c:166-204 | A lock keeps the whole invariant of lists, joins and mutexes |
| `ThreadsInv.UnlockConserva` | kernel/src/kernel_escucha_cpu_dispatch.c:205-246 | An unlock keeps it (repaired) |
| `ThreadsInv.CrearMutexConserva` | kernel/src/kernel_escucha_cpu_dispatch.c:144-164 | Creating a mutex keeps it |
| `ThreadsInv.JoinConserva` | kernel/src/kernel_escucha_cpu_dispatch.c:87-112 | A join keeps it, in either variant |
| `ThreadsInv.IoConserva` | kernel/src/kernel_escucha_cpu_dispatch.c:275-302 | An I/O call keeps it |
| `ThreadsInv.DumpConserva` | kernel/src/kernel_escucha_cpu_dispatch.c:248-260 | A dump call keeps it |
| `ThreadsInv.FinalizarHiloConserva` | kernel/src/k_conexiones.c:427-486 | The end of a thread in any state, ready, executing or blocked, keeps it: mutexes passed on, joiners woken (repaired) |
| `ThreadsInv.FinalizarProcesoConserva` | kernel/src/k_conexiones.c:377-384 | The end of a process, over all its threads in any order, keeps it (repaired) |
| `ThreadsInv.AdmitirConserva` | kernel/src/k_conexiones.c:254-294 | Admitting a new thread keeps it |
| `ThreadsInv.DespacharConserva` | kernel/src/planificadores.c:18-68 | Dispatching, first come first served or by priority, keeps it, and takes a ready thread |
| `ThreadsInv.UnaSolaSiempre` | kernel/src/kernel_escucha_cpu_dispatch.c:20-302 | Over every run, ends of whole processes included, each thread is in exactly the one of ready, blocked, executing and exit that its state names, once |
| `ThreadsInv.NadieEsperaTerminado` | kernel/src/k_conexiones.c:502-518 | Over every run no thread is left join-blocked on a finished one |
| `ThreadsInv.MutexesEnOrden` | kernel/src/kernel_escucha_cpu_dispatch.c:166-246 | Over every run a mutex with waiters has a living owner, its grants and then its queue are its requests in order, waiters are blocked and distinct, none waits on two mutexes; re-locking included |
| `ThreadsInv.UnlockSii` | kernel/src/kernel_escucha_cpu_dispatch.c:223-244 | An unlock changes the mutexes if and only if the caller owns the mutex |
| `ThreadsInv.UnlockEntrega` | kernel/src/kernel_escucha_cpu_dispatch.c:223-237 | The owner's unlock hands the mutex to the first waiter, which becomes ready |
| `ThreadsInv.FiltrarEs` | kernel/src/k_conexiones.c:502-518 | The threads woken, and those that stay, are exactly the matching and the other ones, in list order |
| `ThreadsInv.FinalizarDespierta` | kernel/src/k_conexiones.c:427-518 | When a thread ends, one blocked only by a join becomes ready if and only if it waits for that thread |
| `ThreadsInv.FinalizarSolo` | kernel/src/k_conexiones.c:427-486 | When a thread ends, the finished threads are those from before and it |
| `ThreadsInv.UnlockComoEstaSii` | kernel/src/kernel_escucha_cpu_dispatch.c:223-237 | As written, an unlock keeps the lists in order if and only if the caller is not the owner or nobody waits |
| `ThreadsInv.JoinDespiertaSii` | kernel/src/kernel_escucha_cpu_dispatch.c:105 | The end of another thread, whatever it was doing, wakes a joiner if and only if the call is repaired and that thread is its target; as written never |
| `ThreadsInv.CancelSii` | kernel/src/kernel_escucha_cpu_dispatch.c:113-128 | As written, a cancel finishes its caller, and its target if and only if it is the caller or had finished |
| `ThreadsInv.DespacharOrdena` | kernel/src/k_conexiones.c:156-182 | Dispatching by priority until nobody is ready runs the stable sort of the ready list |
| `ThreadsInv.DespacharEnOrden` | kernel/src/planificadores.c:21-33 | Dispatching first come first served runs the ready list in its order |
| `ThreadsRun.ProcesoTermina` | kernel/src/k_conexiones.c:377-384 | PROCESS_EXIT finishes every thread of its process, whatever it was doing, and changes no thread of any other |
| `ThreadsRun.FinalizarAjeno` | kernel/src/k_conexiones.c:427-518 | The end of a thread changes no thread and no mutex of another process |
| `ThreadsRun.JoinSii` | kernel/src/kernel_escucha_cpu_dispatch.c:87-112 | A join blocks if and only if its target exists and has not finished; and then, over every run that follows, its caller is blocked on it if and only if the target has not finished (repaired) |
| `ThreadsRun.LockSii` | kernel/src/kernel_escucha_cpu_dispatch.c:166-204 | A lock is granted at once if and only if the mutex has no owner; otherwise, over every run that follows, the request waits until it is granted or its thread finishes, and nobody gets ahead of it in the queue (repaired) |
| `Efectos.IoEs` | kernel/src/kernel_escucha_cpu_dispatch.c:275-302 | After an I/O call the caller is ready and last of the ready list, and no other thread, list or mutex has changed |
| `Efectos.DumpEs` | kernel/src/kernel_escucha_cpu_dispatch.c:248-260 | After a dump call the caller is blocked and last of the blocked list, and no other thread, list or mutex has changed |
| `Efectos.JoinEs` | kernel/src/kernel_escucha_cpu_dispatch.c:87-112 | After a join the caller waits for the thread named, or for itself as written, if and only if that thread exists and has not finished; otherwise it is ready; nothing else has changed |
| `Efectos.CrearMutexEs` | kernel/src/kernel_escucha_cpu_dispatch.c:144-164 | After a creation the mutex exists, every earlier mutex of every process is as it was, and a new name is found with no owner and nobody waiting |
| `Efectos.CrearYTomar` | kernel/src/kernel_escucha_cpu_dispatch.c:144-204 | A mutex created under a new name is granted to the first thread of the process that locks it, whichever that is |
| `Efectos.LockEs` | kernel/src/kernel_escucha_cpu_dispatch.c:166-204 | With no owner the caller takes the mutex and is ready; otherwise it is last of the queue and blocked; nothing else changes |
| `Efectos.UnlockEs` | kernel/src/kernel_escucha_cpu_dispatch.c:205-246 | The owner's unlock hands the mutex to the first waiter, both end up ready in that order, and repaired the waiter leaves the blocked list; with nobody waiting the mutex has no owner; the unlock of another thread changes no mutex |
| `Efectos.PrioridadSiempre` | kernel/src/k_conexiones.c:278-294 | A thread is created ready, last of the list, and keeps the priority it was created with over every run |
| `Efectos.DespacharEs` | kernel/src/planificadores.c:18-68 | A dispatch takes one thread, the first of the list or the first of the lowest priority number, from ready to executing, and nothing else changes |
| `EventosKernel.FinalizarMutexes` | kernel/src/k_conexiones.c:427-486 | When a thread ends, its requests are withdrawn from every mutex of its process, and each one it owned belongs to the first thread waiting, or to nobody |
| `EventosKernel.FinalizarEs` | kernel/src/k_conexiones.c:427-518 | When a thread ends: it is last of the finished ones, whoever inherits a mutex from it or had joined it is ready, no other control block changes, the mutexes of its process are passed on as above and those of others stay |
| `EventosKernel.ProcesoEs` | kernel/src/k_conexiones.c:377-384 | When a process ends, over lista_tcbs in any order, each of its threads has finished, and no thread and no mutex of another process changes |
| `EventosKernel.PasoEs` | kernel/src/kernel_escucha_cpu_dispatch.c:20-302 | Each event of the runs leaves what its call is for, stated without the functions that carry it out |
| `EventosKernel.CorrerEs` | kernel/src/kernel_escucha_cpu_dispatch.c:20-302 | Every run goes through states each of which is what the next event leaves of the one before; an event that cannot happen is passed over |
| `KernelModule.Tcb.constructor` | kernel/src/k_conexiones.c:278-294 | A new control block is READY and waits for nobody |
| `KernelModule.Kernel.BuscarTcbs` | kernel/src/k_conexiones.c:551-572 | The linear search finds the control block with that pid and tid, or NULL |
| `KernelModule.Kernel.BuscarMutex` | kernel/src/kernel_escucha_cpu_dispatch.c:320-330 | The first mutex with that name |
| `KernelModule.Kernel.HiloMenorPrioridad` | kernel/src/k_conexiones.c:156-182 | The search loop over the ready list picks the earliest of lowest priority |
| `KernelModule.Kernel.Despachar` | kernel/src/planificadores.c:18-68 | Takes the chosen thread, and it alone, out of ready and into executing, in place, keeping the invariant |
| `KernelModule.Kernel.AdmitirHilo` | kernel/src/k_conexiones.c:254-294 | A new control block joins lista_tcbs and lista_ready, READY, last, with the priority given; nothing else changes; the invariant is kept |
| `KernelModule.Kernel.ThreadJoin` | kernel/src/kernel_escucha_cpu_dispatch.c:87-112 | The handler on control blocks and lists, in either variant: the caller blocks if and only if the target exists and has not finished; the invariant of lists, joins and mutexes is kept |
| `KernelModule.Kernel.Io` | kernel/src/kernel_escucha_cpu_dispatch.c:275-302 | The handler on control blocks and lists: the caller becomes ready, last of the list, and nothing else changes; the invariant is kept |
| `KernelModule.Kernel.DumpMemory` | kernel/src/kernel_escucha_cpu_dispatch.c:248-260 | The handler on control blocks and lists: the caller is blocked and nothing else changes; the invariant is kept |
| `KernelModule.Kernel.MutexCreate` | kernel/src/kernel_escucha_cpu_dispatch.c:144-164 | The handler on control blocks and lists: the process has one mutex more, with no owner, and every other is as it was; the invariant is kept |
| `KernelModule.Kernel.MutexLock` | kernel/src/kernel_escucha_cpu_dispatch.c:166-204 | The handler on control blocks and lists: the mutex is taken, or the caller queued and blocked; nothing else changes; the invariant is kept |
| `KernelModule.Kernel.MutexUnlock` | kernel/src/kernel_escucha_cpu_dispatch.c:205-246 | The handler on control blocks and lists, in either variant: the owner passes the mutex to the first waiter or leaves it free; repaired, the invariant is kept |
| `KernelModule.Kernel.CederTodos` | kernel/src/k_conexiones.c:457-474 | The loop passes on every mutex the thread owns (repaired lookup) |
| `KernelModule.Kernel.DesbloquearHilosPorTid` | kernel/src/k_conexiones.c:502-518 | The loop that removes while iterating wakes exactly the joiners, in order, and leaves the others, in order |
| `KernelModule.PasadaEs` | kernel/src/k_conexiones.c:502-518 | That one pass with removal equals filtering the list, when no thread is listed twice |
| `KernelModule.Kernel.FinalizarHilo` | kernel/src/k_conexiones.c:427-486 | The whole termination in place, of a thread in any state: heirs and joiners ready, no other thread changed; the invariant is kept |
| `KernelModule.Kernel.FinalizarProceso` | kernel/src/k_conexiones.c:377-384 | One pass over lista_tcbs ends every thread of the process and changes no thread or mutex of another; the invariant is kept |
| `KernelModule.Kernel.ThreadCancel` | kernel/src/kernel_escucha_cpu_dispatch.c:113-128 | The handler as written: it looks up and finishes its caller, keeping the invariant |
| `Admision.CrearHiloMainTurno` | kernel/src/k_conexiones.c:206-252 | The process popped from NEW on a confirmation is the one confirmed |
| `Admision.UnaFichaSiempre` | kernel/src/kernel_escucha_memoria.c:18-43 | Over every run, as written or repaired: tokens, requests, replies and lost requests total one; messages in flight are about the head of NEW, so the kernel never meets an empty queue; processes are admitted in creation order |
| `Admision.NingunaFichaPerdida` | memoria/src/escuchar_kernel.c:84-107 | With the repaired replies the token is never lost |
| `Admision.PresupuestoSiempre` | kernel/src/kernel_escucha_memoria.c:61 | Over every run dispatches made and tokens left are the creation confirmations received, and tokens never exceed the ready list, so a dispatch never takes from an empty list |
| `Admision.SinFichasNadieCorre` | kernel/src/planificadores.c:18-45 | With no token left, until a creation is confirmed nobody is dispatched and every ready thread stays where it is, whatever else the run does |
| `Admision.EsperaSinFicha` | kernel/src/planificadores.c:18-45 | The input: a run after which a thread is at the head of READY with no token left, and stays there for as long as no creation is confirmed |
| `Admision.HilosUnaVez` | kernel/src/kernel_escucha_cpu_dispatch.c:45-85 | Over every run no two threads have the same process and number if and only if no thread of an ended process creates another; then no thread enters READY from its creation twice, and numbers are 0 or odd |
| `Admision.TamanioSiempre` | kernel/src/k_conexiones.c:297-352 | Over every run the processes have the sizes asked for, in creation order, and whoever holds a partition holds one of its size, or of at least its size with fixed partitions |
| `Admision.NumerosSiempre` | kernel/src/kernel_escucha_cpu_dispatch.c:45-85 | Over every run the threads of an admitted process that has not ended are numbered 0, 1, 3, 5... up to its counter, with none left out and no others |
| `Admision.MemoriaCaeSii` | memoria/src/escuchar_kernel.c:255-287 | Over every run, the memory module never meets a creation whose process holds no partition, nor will from what is on its way, if and only if no thread of an ended process created another: ends of processes race with creations freely (repaired) |
| `Admision.CreacionRespaldada` | memoria/src/escuchar_kernel.c:188-287 | While no thread of an ended process creates another: each listed thread is in flight or has entered READY, exactly once; each creation in flight will find its partition; a confirmation in flight names a holder, or a process ended since (repaired) |
| `Admision.ConfirmacionHuerfanaSii` | kernel/src/k_conexiones.c:254-424 | When a process ends: in every continuation without a thread of an ended process creating another, whichever side acts first, each confirmation on its way for a thread of it finds its partition, if and only if none of its creations was unconfirmed at its end (repaired) |
| `Admision.ConfirmacionesTras` | memoria/src/escuchar_kernel.c:21-23 | If the memory module receives all that is on its way before anything else happens, the process holds no partition and its confirmations left are as many as its creations unconfirmed at its end (repaired) |
| `Admision.ConfirmacionHuerfana` | kernel/src/k_conexiones.c:254-424 | The input: a run with one such confirmation, and its continuation, where the thread of the dead process becomes ready, runs, and brings the memory module down (repaired) |
| `Admision.PierdeFichaSii` | memoria/src/escuchar_kernel.c:88-107 | A request loses the token if and only if the code is as written and no free partition is large enough |
| `Admision.SinFichaNadie` | kernel/src/planificadores.c:5-16 | Once the token is lost no process is ever admitted again |
| `Admision.IniciarDeMasAdelanta` | kernel/src/k_conexiones.c:406 | The request sent without a token at the end of a process beside the planner's: the process behind the head of NEW is admitted with it, though no space was asked for it, if and only if memory finds room twice, in the list and in the list after the first assignment |
| `Admision.IniciarDeMasEntrada` | kernel/src/k_conexiones.c:406 | The input: two processes of 64 bytes in NEW and a memory of 1024, where it is |
| `EventosAdmision.PasoEs` | kernel/src/kernel_escucha_memoria.c:18-67 | What each message and each scheduling event leaves: every search finds its process, a positive reply admits the head of NEW with thread 0, a confirmed thread is listed and goes to the end of READY; as written or repaired, the memory module falls over exactly on a creation for a process without partition, or, as written, on a request that no fixed partition fits |
| `EventosAdmision.CorrerEs` | kernel/src/kernel_escucha_memoria.c:18-67 | Every run from the start goes through states each of which is what the next event leaves of the one before |
| `AdmissionModule.Kernel.BuscarProceso` | utils/src/utils/utils.c:11-31 | The index loop finds the process, or NULL |
| `AdmissionModule.Kernel.CrearProceso` | kernel/src/k_conexiones.c:317-352 | A process is numbered next and joins NEW and lista_procesos, keeping whose turn it is and which threads are where |
| `AdmissionModule.Kernel.IniciarProceso` | kernel/src/k_conexiones.c:297-314 | The planner asks for space for the head of NEW, keeping both |
| `AdmissionModule.Kernel.CrearHiloMain` | kernel/src/k_conexiones.c:206-252 | The head of NEW leaves it and its main thread is asked for |
| `AdmissionModule.Kernel.ConfirmacionCrearHilo` | kernel/src/k_conexiones.c:254-276 | A confirmed thread, if listed, joins READY |
| `AdmissionModule.Kernel.EscucharMemoria` | kernel/src/kernel_escucha_memoria.c:18-67 | Any message of the confirmation loop, with its semaphore post, keeping both: a positive reply never meets an empty NEW, and admits the process it is about |
| `AdmissionModule.Kernel.ThreadCreate` | kernel/src/kernel_escucha_cpu_dispatch.c:45-85 | The counter moves twice and the number in between is taken, keeping both: the process of an executing thread is always found |
| `AdmissionModule.Kernel.ProcessExit` | kernel/src/k_conexiones.c:359-424 | The main thread's end of its process in place, keeping both: the process is found and marked, and the memory module told |
| `AdmissionModule.Kernel.Despachar` | kernel/src/planificadores.c:18-45 | A dispatch with a token never removes from an empty list, and keeps both |
| `Cpu.PalabrasDeLinea` | cpu/src/ciclo_de_instruccion.c:60-70 | A line made of words decodes into those words |
| `Cpu.PalabrasParten` | cpu/src/ciclo_de_instruccion.c:60-70 | Any line is split the same way on both sides of a space: runs of spaces count as one |
| `Cpu.EscribirLeer` | memoria/src/escuchar_cpu.c:277-325 | A word written is read back, unless it would end the memory |
| `Cpu.PasosCaben` | cpu/src/ciclo_de_instruccion.c:118-189 | However long a program runs, PC and registers stay on 32 bits and the memory keeps its size |
| `Cpu.PasosConfinados` | cpu/src/c_conexiones.c:263-274 | However long a program runs, no byte outside its partition changes (repaired) |
| `Cpu.SumaYResta` | cpu/src/c_conexiones.c:199-213 | Subtracting what was added restores the registers, whatever wraps round |
| `Cpu.EscribeYLee` | cpu/src/ciclo_de_instruccion.c:173-178 | WRITE_MEM and READ_MEM through the same address register, dispatched by their operation, carry a word over, unless it ends the memory |
| `Cpu.MmuAcepta` | cpu/src/c_conexiones.c:263-274 | Exactly which logical addresses the translation lets through, as written and repaired |
| `Cpu.MmuComoEstaSii` | memoria/src/escuchar_kernel.c:267-268 | As written, no address outside the partition is let through if and only if it starts at 0 |
| `Cpu.EscribeDentroSii` | cpu/src/c_conexiones.c:179-188 | As written, no WRITE_MEM from any machine changes a byte outside the partition if and only if at most one byte of memory follows it (counting it as three bytes at least) |
| `Numeros.AtoiDecimal` | cpu/src/c_conexiones.c:133 | Blanks, a sign or none, zeros and the decimal digits of n, with anything after them that is not a digit, are read as n, or as -n modulo 2^32 |
| `Numeros.AtoiDe` | cpu/src/c_conexiones.c:133 | Every number below 2^32, written in decimal, is read back |
| `Numeros.AtoiSinCifras` | cpu/src/c_conexiones.c:133 | With no digit after the blanks and the sign the number is 0 |
| `Instrucciones.RegDeSii` | cpu/src/c_conexiones.c:223-261 | The eight registers are known by their names, and by no other name |
| `Instrucciones.LineaSet` | cpu/src/c_conexiones.c:132-143 | A SET line changes its register alone, to the number written; the word PC keeps the thread there |
| `Instrucciones.LineaSum` | cpu/src/c_conexiones.c:199-205 | A SUM line changes its first register alone, to the sum modulo 2^32 |
| `Instrucciones.LineaSub` | cpu/src/c_conexiones.c:207-213 | A SUB line changes its first register alone, to the difference modulo 2^32 |
| `Instrucciones.LineaJnz` | cpu/src/c_conexiones.c:215-221 | A JNZ line jumps if and only if its register is not 0 (repaired); as written the CPU falls over |
| `Instrucciones.LineaLog` | cpu/src/ciclo_de_instruccion.c:153-160 | A LOG line changes nothing but the PC |
| `Instrucciones.LineaSinRegistro` | cpu/src/ciclo_de_instruccion.c:118-189 | With a name that is no register, an instruction does nothing but to the PC, and LOG makes the CPU fall over |
| `Instrucciones.LineaWrite` | cpu/src/c_conexiones.c:179-188 | A WRITE_MEM line ends in a segmentation fault if and only if its address is not let through; otherwise it writes that word and no other byte |
| `Instrucciones.LineaRead` | cpu/src/c_conexiones.c:145-157 | A READ_MEM line ends in a segmentation fault if and only if its address is not let through, which repaired is when its word is not inside the partition; waits for ever if and only if the word would end the memory; otherwise loads the word into its register alone |
| `Instrucciones.EscribeYLeeLineas` | cpu/src/ciclo_de_instruccion.c:173-178 | A WRITE_MEM line and then a READ_MEM line through the same address register carry the word from one register to the other, over two turns of the cycle |
| `Instrucciones.MemFijasLee` | scripts-pruebas/MEM_FIJAS:1-4 | These four lines leave 64 in BX and in the first word of the partition, and change no other byte |
| `Llamadas.LlamaSii` | cpu/src/ciclo_de_instruccion.c:82-111 | For every line made of words: the thread stops for a system call at once if and only if its first word is among eleven names, or as written among eight, one of them misspelt |
| `Llamadas.SinSalida` | cpu/src/ciclo_de_instruccion.c:118-189 | A line that starts with neither a call decoded as one nor an operation, or a blank line, holds its thread for ever |
| `Llamadas.LlamadaLlegaSii` | cpu/src/c_conexiones.c:276-345 | For every call, with any names and numbers: a thread that comes to its line makes the kernel receive exactly that call, with those names and numbers, if and only if the code is repaired or the call is not one of the four forgotten, which hold the thread for ever |
| `Llamadas.MalEscritaCalla` | cpu/src/ciclo_de_instruccion.c:97 | As written the misspelt name stops its thread for a call, and nothing is sent to the kernel |
| `CpuModule.Cpu.EscribirEnMemoria` | memoria/src/escuchar_cpu.c:277-290 | The four bytes are copied in place and nothing else changes |
| `CpuModule.Cpu.WriteMem` | cpu/src/c_conexiones.c:179-188 | Translation, refusal and write, in place |
| `CpuModule.Cpu.ReadMem` | cpu/src/c_conexiones.c:145-157 | Translation, refusal and read, in place |
| `CpuModule.Cpu.JnzRegistro` | cpu/src/c_conexiones.c:215-221 | The jump, in either variant |
| `CpuModule.Cpu.Execute` | cpu/src/ciclo_de_instruccion.c:118-189 | One instruction on the registers and memory in place, on 32 bits and, repaired, inside the partition |
| `CpuModule.Cpu.Ciclo` | cpu/src/ciclo_de_instruccion.c:4-35 | The fetch-decode-execute loop, turn by turn, until something stops it, on 32 bits and, repaired, inside the partition |
| `Fibo.LineaDeSet` | scripts-pruebas/FIBO_47:1-6 | The first six lines decode into the settings they name, the loop count being read from its decimal digits |
| `Fibo.LineaDeBucle` | scripts-pruebas/FIBO_47:7-16 | The ten lines of the loop decode into the operations they name |
| `Fibo.FiboLlega` | scripts-pruebas/FIBO_47:1-18 | With any loop count 1 <= n < 2^32 written in decimal on its fourth line, and room for 2n words: DUMP_MEMORY is reached after 6+10n steps, the words are the Fibonacci numbers mod 2^32 (but for one that would end the memory), no other byte changes, AX and BX hold the next two |
| `Fibo.ExactoSii` | scripts-pruebas/FIBO_47:4 | AX and BX end as the true numbers if and only if n <= 23 |
| `Aislamiento.InicialesEnLista` | memoria/src/m_conexiones.c:75-116 | Both configured initial lists are in order, with nobody holding a partition |
| `Aislamiento.MemoriaPrivada` | cpu/src/c_conexiones.c:263-274 | Over every interleaving of allocations, ends, thread creations, switches, reads and writes, in either scheme, the bytes of each partition in use are its process's private memory (repaired) |
| `Aislamiento.LeeLoSuyo` | memoria/src/escuchar_cpu.c:301-325 | A read gives the word of the private memory; cut off exactly when outside, unanswered exactly when it ends the memory |
| `Aislamiento.LeeLoUltimoEscrito` | memoria/src/escuchar_cpu.c:277-325 | READ_MEM returns the last word written by the process, over every run in between |
| `EventosMemoria.PasoEs` | memoria/src/escuchar_kernel.c:61-317 | What each event leaves: a request gives the process one partition of the size asked for, and for private memory what it holds, if and only if something fits; an end takes its partition, threads and private memory; a write changes one word, of the memory and of its own private memory, if and only if it is inside |
| `EventosMemoria.CorrerEs` | memoria/src/escuchar_kernel.c:61-317 | Every run goes through states each of which is what the next event leaves of the one before |
| `Intercalado.ComoSolo` | memoria/src/escuchar_cpu.c:66-146 | Over every interleaving of threads, with contexts saved and given back at each switch, the PC, registers and partition bytes of a thread whose partition no other has are those of its program run alone for as many turns as it took (repaired) |
| `Intercalado.DaIgualElOrden` | cpu/src/ciclo_de_instruccion.c:4-35 | Two runs that give a thread as many turns leave it in the same place, whatever the others do |
| `Intercalado.LlegaIgual` | cpu/src/ciclo_de_instruccion.c:118-189 | Wherever a program comes to alone, it comes to under any interleaving that gives it the turns |
| `Intercalado.FiboIntercalado` | scripts-pruebas/FIBO_47:1-18 | The Fibonacci program, its loop count n in decimal, under any interleaving: after 6+10n turns of its own its partition holds the first 2n Fibonacci numbers, but for one that would end the memory, and AX and BX the next two |
| `Intercalado.LugaresAjenos` | memoria/src/escuchar_kernel.c:255-287 | Threads of different processes are given places that share no byte, over the runs of `Aislamiento` |
| `Intercalado.WriteEsEscribir` | cpu/src/c_conexiones.c:179-188 | A WRITE_MEM line is the write of the runs of `Aislamiento`: same fault, same bytes |
| `Intercalado.ReadEsLeido` | cpu/src/c_conexiones.c:145-157 | A READ_MEM line loads what a read of those runs gives: same fault, same silence, same word |
| `EventosCpu.PasoEs` | memoria/src/escuchar_cpu.c:66-146 | What each switch and each turn leaves: a switch saves the PC and registers of the thread that ran and loads those of the other; a system call or segmentation fault saves them and frees the CPU; no other context changes |
| `EventosCpu.CorrerEs` | cpu/src/ciclo_de_instruccion.c:4-35 | Every run goes through states each of which is what the next event leaves of the one before |
| `Contextos.ActualizarDevuelve` | memoria/src/escuchar_cpu.c:66-146 | A context saved is the one given back next, and no other context changes |
| `Contextos.FinalizarDevuelve` | memoria/src/escuchar_kernel.c:289-317 | A thread that ends has no context left; every other keeps its own |
| `Contextos.CrearDevuelve` | memoria/src/escuchar_kernel.c:255-274 | A new context starts where the process's partition does, with every register and the PC at 0, its limit the last address of the partition as written and its size repaired; no other context changes |
| `Contextos.CrearConfinaSii` | memoria/src/escuchar_kernel.c:267-268 | The place so given lets no address outside the partition through if and only if the code is repaired or the partition starts at 0 |
| `Contextos.LineasDeTexto` | memoria/src/escuchar_cpu.c:209-244 | A program file reads back line by line |
| `Contextos.ObtenerInstruccion` | memoria/src/escuchar_cpu.c:180-275 | The line at PC, or NULL past the end |
| `Contextos.Lista.BuscarPorTid` | memoria/src/escuchar_cpu.c:45-64 | The first context with that tid and pid |
| `Contextos.Lista.ActualizarContexto` | memoria/src/escuchar_cpu.c:120-146 | Registers and PC overwritten in place; answered exactly when found |
| `Contextos.Lista.CrearHilo` | memoria/src/escuchar_kernel.c:255-274 | The new context appended to the list |
| `Contextos.Lista.FinalizarHilo` | memoria/src/escuchar_kernel.c:289-312 | The first context of the thread removed from the list |
| `Wire.NumeroEn` | utils/src/utils/serializar.c:36-58 | The four bytes of a uint32 read back as that number wherever they are |
| `Wire.CadenaEn` | utils/src/utils/serializar.c:246-283 | A NUL-free string and its terminator read back as that string |
| `Wire.LeerCodificado` | utils/src/utils/serializar.c:36-58 | A field written anywhere is read back from its place and the cursor moves just past it |
| `Wire.LeerTodosCodificados` | utils/src/utils/serializar.c:246-283 | The cursor lemma: fields written in order are read back in order, wherever they are and whatever surrounds them |
| `Wire.SeCorresponden` | utils/src/utils/serializar.c:358-1013 | Each deserializer expects the fields its serializer writes and puts each in its place, for fifteen messages |
| `Wire.IdaYVuelta` | utils/src/utils/serializar.c:358-1013 | Every one of those messages arrives as it was sent, for all field values, whatever follows |
| `Wire.FinalizarHiloSii` | utils/src/utils/serializar.c:698-708 | The end-of-thread message arrives right if and only if pid and tid are equal (as written) |
| `Wire.DumpSinTamanio` | utils/src/utils/serializar.c:764-776 | A dump message is never received whole (as written) |
| `Wire.RecibirEnmarcado` | utils/src/utils/serializar.c:286-344 | A framed packet is received as sent, leaving exactly what follows, if and only if its code is not -1 |
| `Wire.RecibirSii` | utils/src/utils/serializar.c:286-344 | From any stream, a packet is received if and only if the stream begins with it framed and its code is not -1; exactly what follows is left |
| `Wire.RecibirTodos` | utils/src/utils/serializar.c:286-344 | Any sequence of framed packets is recovered unchanged and in order, whatever bytes follow |
| `Wire.DobleLectura` | filesystem/src/escuchar_memoria.c:7-36 | A code read before the packet: of any dump the contents alone are taken for the load, its size for the code, and the rest is left to be read as the next message (as written) |
| `Wire.Buffer.SerializarMensaje` | utils/src/utils/serializar.c:36-58 | The writers append the fields of a message at the moving cursor |
| `Wire.Buffer.LeerCampos` | utils/src/utils/serializar.c:246-283 | The readers advance the cursor field by field; a short buffer gives nothing |
| `Wire.Buffer.DeserializarMensaje` | utils/src/utils/serializar.c:358-1013 | The reading loop rebuilds the message |
| `Wire.Canal.EnviarPaquete` | utils/src/utils/serializar.c:286-300 | A sent packet is appended to the stream, framed |
| `Wire.Canal.RecibirPaquete` | utils/src/utils/serializar.c:316-344 | Receiving takes exactly the first packet off the stream |

## Left out

- Sockets, handshakes, connection threads, send and receive failures, configuration parsing, logs,
  sleeps and timestamps.
- Lifetimes under `malloc` and `free`, and interleaving of threads inside a handler.
- ThreadsInv.MutexesEnOrden: a lock or unlock of a mutex that does not exist is not among its
  events, because the handler dereferences NULL.
- ThreadsInv.DumpConserva: the answer to a dump is not modelled, because the code that would wake
  the caller is commented out.
- KernelModule.Kernel.AdmitirHilo: creation and confirmation of a thread are one step here; they are
  two in `Admision`.
- KernelModule.Kernel.FinalizarProceso: telling the memory module and marking the process are in
  `Admision`; ending its threads, in their lists and mutexes, is here.
- KernelModule.Kernel.MutexLock: mutexes are values in a map by process, updated in place of the
  process's list of mutex objects; the requests and grants recorded with each are history.
- Admision.ConfirmacionHuerfanaSii: which threads are ready, running or blocked is left to the run
  (any of them may move at any time); joins, mutexes and the ends of single threads are in `Threads`.
- Admision.CreacionRespaldada: the pid and tid lists kept in each process record are not modelled.
- Wire.Canal.RecibirPaquete: a stream that ends inside a packet is not modelled, because the real
  call blocks.
- Llamadas.LlamadaLlegaSii: what the kernel does with the call it receives is in `Threads` and
  `Efectos`, not joined to the CPU's run.
- Intercalado.ComoSolo: threads that share a partition, those of one process, are not among those it
  speaks of, because they see one another's writes; the threads and their contexts stay the same over
  a run (their creation and end are in `Contextos` and `Aislamiento`); and after a segmentation fault
  the CPU goes on with other threads, while as written it exits.
- Aislamiento.MemoriaPrivada: runs are of the repaired code, and the end of a process takes its
  threads' contexts with it.
- The transfer of a dump to the file system, whose serializer call is commented out, the CPU's
  interrupt path, the multilevel-queue scheduler, `inicializar_metadata` and `recibir_paquete_lista`.
- `serializar_hilo_ready` copies eight bytes from the four of `prioridad`; the next field overwrites
  the rest, and the model writes four.
